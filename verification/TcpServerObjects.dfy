/**
  The code behind the steps of TcpServers: connections are objects with a channel of their own at the
  poller of their loop, closures and the map hold references to them, and `View` is the state of the
  model that all of it amounts to.
 */
module TcpServerObjects {
  import opened TcpServers
  import Pollers
  import TcpConnections

  class Connection {
    const name: string
    const loop: nat
    const channel: Pollers.Channel
    /** How many connections were accepted before it. */
    ghost const number: nat
    var state: TcpConnections.ConnState
    ghost var log: seq<Event>
    /** The last reference is gone, and the object with it. */
    ghost var freed: bool

    constructor (name: string, loop: nat, channel: Pollers.Channel, ghost number: nat)
      modifies channel`callbacks
      ensures this.name == name && this.loop == loop && this.channel == channel && this.number == number
      ensures state == TcpConnections.Connecting && log == [] && !freed
      ensures channel.callbacks == old(channel.callbacks) + {Pollers.OnRead, Pollers.OnWrite}
    {
      this.name, this.loop, this.channel, this.number := name, loop, channel, number;
      state, log, freed := TcpConnections.Connecting, [], false;
      new;
      channel.SetCallback(Pollers.OnRead);
      channel.SetCallback(Pollers.OnWrite);
    }

    ghost function View(poller: Pollers.Poller): Peer
      reads this, channel, poller
    {
      Peer(name, loop, state, if freed then Pollers.UNUSED else poller.EntryOf(channel), channel.tied, channel.callbacks, log)
    }

    ghost predicate At(poller: Pollers.Poller)
      reads this, poller, poller.known
    {
      poller.Valid() && channel in poller.known && !freed
    }

    method ConnectEstablished(poller: Pollers.Poller)
      requires At(poller)
      modifies this, channel, poller
      ensures At(poller) && poller.known == old(poller.known)
      ensures View(poller) == Established(old(View(poller))) && channel.tied
      ensures forall c :: c in poller.known && c != channel ==> poller.EntryOf(c) == old(poller.EntryOf(c))
    {
      state := TcpConnections.Connected;
      channel.tied := true;
      channel.EnableReading(poller);
      log := log + [Up];
    }

    /** HandleClose up to the close callback, and the same lines of ConnectDestoryed. */
    method Close(poller: Pollers.Poller)
      requires At(poller)
      modifies this, channel, poller
      ensures At(poller) && poller.known == old(poller.known)
      ensures View(poller) == Closed(old(View(poller)))
      ensures forall c :: c in poller.known && c != channel ==> poller.EntryOf(c) == old(poller.EntryOf(c))
    {
      state := TcpConnections.Disconnected;
      channel.DisableAll(poller);
      log := log + [Down];
    }

    method ConnectDestroyed(poller: Pollers.Poller)
      requires At(poller)
      modifies this, channel, poller
      ensures At(poller) && poller.known == old(poller.known)
      ensures View(poller) == TornDown(old(View(poller)))
      ensures forall c :: c in poller.known && c != channel ==> poller.EntryOf(c) == old(poller.EntryOf(c))
    {
      if state == TcpConnections.Connected {
        Close(poller);
      }
      channel.Remove(poller);
      log := log + [Destroyed];
    }
  }

  /** What is done with a connection on its own loop. */
  datatype Deed = ToEstablish | ToClose | ToDestroy

  function Done(k: Peer, deed: Deed): Peer {
    match deed
    case ToEstablish => Established(k)
    case ToClose => Closed(k)
    case ToDestroy => TornDown(k)
  }

  /** A bound member function with the shared pointer it was bound to. */
  datatype Work = DoEstablish | DoRemove | DoDestroy
  datatype Closure = Closure(work: Work, conn: Connection)

  datatype Turn = Waiting | Handling(active: seq<Connection>) | Batch(ran: seq<Closure>, rest: seq<Closure>)

  datatype LoopThread = LoopThread(turn: Turn, queue: seq<Closure>)

  ghost function TaskOf(c: Closure): (t: Task)
    ensures t.c == c.conn.number
  {
    match c.work
    case DoEstablish => Establish(c.conn.number)
    case DoRemove => RemoveInLoop(c.conn.number)
    case DoDestroy => Destroy(c.conn.number)
  }

  ghost function TasksOf(cs: seq<Closure>): (ts: seq<Task>)
    ensures |ts| == |cs| && forall i :: 0 <= i < |cs| ==> ts[i] == TaskOf(cs[i])
  {
    seq(|cs|, i requires 0 <= i < |cs| => TaskOf(cs[i]))
  }

  ghost function NumbersOf(cs: seq<Connection>): (ns: seq<nat>)
    ensures |ns| == |cs| && forall i :: 0 <= i < |cs| ==> ns[i] == cs[i].number
  {
    seq(|cs|, i requires 0 <= i < |cs| => cs[i].number)
  }

  ghost function LoopOf(t: LoopThread): Loop {
    Loop(match t.turn
         case Waiting => Polling
         case Handling(active) => Dispatching(NumbersOf(active))
         case Batch(ran, rest) => Running(TasksOf(ran), TasksOf(rest)),
         TasksOf(t.queue))
  }

  ghost function LoopsOf(ts: seq<LoopThread>): (ls: seq<Loop>)
    ensures |ls| == |ts| && forall i :: 0 <= i < |ts| ==> ls[i] == LoopOf(ts[i])
  {
    seq(|ts|, i requires 0 <= i < |ts| => LoopOf(ts[i]))
  }

  ghost function NumbersByName(m: map<string, Connection>): (ns: map<string, nat>)
    ensures ns.Keys == m.Keys && forall k :: k in m ==> ns[k] == m[k].number
  {
    map k | k in m :: m[k].number
  }

  lemma NumbersWith(m: map<string, Connection>, name: string, c: Connection)
    ensures NumbersByName(m[name := c]) == NumbersByName(m)[name := c.number]
  {
  }

  lemma TasksAppend(cs: seq<Closure>, c: Closure)
    ensures TasksOf(cs + [c]) == TasksOf(cs) + [TaskOf(c)]
  {
  }

  lemma TasksCons(c: Closure, rest: seq<Closure>)
    ensures TasksOf([c] + rest) == [TaskOf(c)] + TasksOf(rest)
  {
  }

  lemma NumbersCons(c: Connection, rest: seq<Connection>)
    ensures NumbersOf([c] + rest) == [c.number] + NumbersOf(rest)
  {
  }

  lemma FirstHandled(t: LoopThread, c: Connection, rest: seq<Connection>, peers: seq<Connection>)
    requires t.turn == Handling([c] + rest) && RefersWell(t, peers)
    ensures Known(c, peers) && LoopOf(t).phase == Dispatching([c.number] + NumbersOf(rest))
  {
    assert t.turn.active[0] == c;
    NumbersCons(c, rest);
  }

  lemma FirstRun(t: LoopThread, ran: seq<Closure>, closure: Closure, rest: seq<Closure>, peers: seq<Connection>)
    requires t.turn == Batch(ran, [closure] + rest) && RefersWell(t, peers)
    ensures Known(closure.conn, peers)
    ensures LoopOf(t).phase == Running(TasksOf(ran), [TaskOf(closure)] + TasksOf(rest))
  {
    assert t.turn.rest[0] == closure;
    TasksCons(closure, rest);
  }

  lemma StillKnown(ran: seq<Closure>, closure: Closure, rest: seq<Closure>, peers: seq<Connection>)
    requires AllKnown(ran, peers) && AllKnown([closure] + rest, peers)
    ensures AllKnown(ran + [closure], peers) && AllKnown(rest, peers)
  {
    assert ([closure] + rest)[0] == closure;
    assert forall i :: 0 <= i < |rest| ==> rest[i] == ([closure] + rest)[i + 1];
  }

  lemma LoopsUpdate(ts: seq<LoopThread>, l: nat, t: LoopThread)
    requires l < |ts|
    ensures LoopsOf(ts[l := t]) == LoopsOf(ts)[l := LoopOf(t)]
  {
  }

  ghost function Channels(peers: seq<Connection>): set<Pollers.Channel> {
    set c | c in peers :: c.channel
  }

  /** The state of a connection at the poller of its loop. */
  ghost function PeerView(c: Connection, pollers: seq<Pollers.Poller>): Peer
    reads c, c.channel, pollers
  {
    if c.loop < |pollers| then c.View(pollers[c.loop]) else Accepted(c.name, c.loop)
  }

  ghost function PeersView(peers: seq<Connection>, pollers: seq<Pollers.Poller>): (ps: seq<Peer>)
    reads peers, Channels(peers), pollers
    ensures |ps| == |peers| && forall i :: 0 <= i < |peers| ==> ps[i] == PeerView(peers[i], pollers)
  {
    seq(|peers|, i requires 0 <= i < |peers| reads peers, Channels(peers), pollers => PeerView(peers[i], pollers))
  }

  /** Each loop has a poller with channels of its own. */
  ghost predicate PollersOk(pollers: seq<Pollers.Poller>)
    reads pollers, set p, k | p in pollers && k in p.known :: k
  {
    && (forall i :: 0 <= i < |pollers| ==> pollers[i].Valid())
    && (forall i, j :: 0 <= i < j < |pollers| ==> pollers[i] != pollers[j] && pollers[i].known !! pollers[j].known)
  }

  /** Each connection that exists has a channel of its own at its loop; the others have been through everything. */
  ghost predicate PeersOwn(peers: seq<Connection>, pollers: seq<Pollers.Poller>)
    reads peers, pollers
  {
    && (forall i :: 0 <= i < |peers| ==>
          && peers[i].number == i && peers[i].loop < |pollers|
          && (if peers[i].freed then peers[i].log == LIFE else peers[i].channel in pollers[peers[i].loop].known))
    && (forall i, j :: 0 <= i < j < |peers| ==> peers[i].channel != peers[j].channel)
  }

  /** A reference to one of the connections. */
  ghost predicate Known(c: Connection, peers: seq<Connection>) {
    c.number < |peers| && peers[c.number] == c
  }

  ghost predicate AllKnown(cs: seq<Closure>, peers: seq<Connection>) {
    forall i :: 0 <= i < |cs| ==> Known(cs[i].conn, peers)
  }

  ghost predicate RefersWell(t: LoopThread, peers: seq<Connection>) {
    && AllKnown(t.queue, peers)
    && match t.turn
       case Waiting => true
       case Handling(active) => forall i :: 0 <= i < |active| ==> Known(active[i], peers)
       case Batch(ran, rest) => AllKnown(ran, peers) && AllKnown(rest, peers)
  }

  ghost predicate ThreadsRefer(threads: seq<LoopThread>, peers: seq<Connection>) {
    forall l :: 0 <= l < |threads| ==> RefersWell(threads[l], peers)
  }

  ghost predicate MapRefers(m: map<string, Connection>, peers: seq<Connection>) {
    forall k :: k in m ==> Known(m[k], peers)
  }

  lemma ChannelsDiffer(active: seq<Connection>, peers: seq<Connection>, pollers: seq<Pollers.Poller>)
    requires PeersOwn(peers, pollers) && Distinct(NumbersOf(active))
    requires forall i :: 0 <= i < |active| ==> Known(active[i], peers)
    ensures forall i, j :: 0 <= i < j < |active| ==> active[i].channel != active[j].channel
  {
    forall i, j | 0 <= i < j < |active| ensures active[i].channel != active[j].channel {
      assert NumbersOf(active)[i] != NumbersOf(active)[j];
      assert Known(active[i], peers) && Known(active[j], peers);
    }
  }

  lemma NotFreedBefore(peers: seq<Connection>, pollers: seq<Pollers.Poller>, c: Connection)
    requires PeersOwn(peers, pollers) && Known(c, peers) && |PeerView(c, pollers).log| < |LIFE|
    ensures !c.freed && c.loop < |pollers|
  {
  }

  /** References stay good as connections are added. */
  lemma ReferencesStay(m: map<string, Connection>, threads: seq<LoopThread>, peers: seq<Connection>, c: Connection)
    requires MapRefers(m, peers) && ThreadsRefer(threads, peers)
    ensures MapRefers(m, peers + [c]) && ThreadsRefer(threads, peers + [c])
  {
    forall l | 0 <= l < |threads| ensures RefersWell(threads[l], peers + [c]) {
      assert RefersWell(threads[l], peers);
    }
  }

  lemma OneNameLess(m: map<string, Connection>, name: string, peers: seq<Connection>)
    requires MapRefers(m, peers)
    ensures MapRefers(m - {name}, peers)
  {
  }

  lemma NumbersWithout(m: map<string, Connection>, name: string)
    ensures NumbersByName(m - {name}) == NumbersByName(m) - {name}
  {
  }

  ghost function WithLoop(s: Server, l: nat, loop: Loop): Server
    requires l < |s.loops|
  {
    s.(loops := s.loops[l := loop])
  }

  ghost function Without(s: Server, name: string): Server {
    s.(connections := s.connections - {name})
  }

  /** What handling a connection comes to, once it is off the list. */
  ghost function Ended(s: Server, c: nat, atEnd: bool): Server
    requires c < |s.peers| && s.peers[c].loop < |s.loops| && 0 < |s.loops|
  {
    if atEnd then Removed(Put(s, c, Closed(s.peers[c])), c) else s
  }

  class TcpServer {
    const name: string
    const pollers: seq<Pollers.Poller>
    var nextConnectionId: nat
    var connections: map<string, Connection>
    var threads: seq<LoopThread>
    /** All connections ever accepted. */
    ghost var peers: seq<Connection>

    ghost function View(): Server
      reads this, peers, Channels(peers), pollers
    {
      Server(name, nextConnectionId, NumbersByName(connections), LoopsOf(threads), PeersView(peers, pollers))
    }

    ghost predicate Objects()
      reads this, peers, pollers, set p, k | p in pollers && k in p.known :: k
    {
      |threads| == |pollers| && PollersOk(pollers) && PeersOwn(peers, pollers)
      && MapRefers(connections, peers) && ThreadsRefer(threads, peers)
    }

    /** The objects are in a state of the model. */
    ghost predicate Valid()
      reads this, peers, Channels(peers), pollers, set p, k | p in pollers && k in p.known :: k
    {
      Objects() && Inv(View())
    }

    constructor (name: string, pollers: seq<Pollers.Poller>)
      requires pollers != [] && PollersOk(pollers)
      ensures Valid() && View() == Start(name, |pollers| - 1) && this.pollers == pollers
    {
      this.name, this.pollers := name, pollers;
      nextConnectionId, connections, peers := 1, map[], [];
      threads := seq(|pollers|, i => LoopThread(Waiting, []));
    }

    /** A function of the connection at the poller of its loop; the pollers of the others do not notice. */
    method AtItsPoller(c: Connection, deed: Deed)
      requires PollersOk(pollers) && PeersOwn(peers, pollers) && Known(c, peers) && !c.freed
      modifies c, c.channel, pollers[c.loop]
      ensures PollersOk(pollers) && c.At(pollers[c.loop])
      ensures c.View(pollers[c.loop]) == Done(old(c.View(pollers[c.loop])), deed)
      ensures pollers[c.loop].known == old(pollers[c.loop].known)
      ensures forall k :: k in pollers[c.loop].known && k != c.channel ==>
                pollers[c.loop].EntryOf(k) == old(pollers[c.loop].EntryOf(k))
    {
      match deed {
        case ToEstablish => c.ConnectEstablished(pollers[c.loop]);
        case ToClose => c.Close(pollers[c.loop]);
        case ToDestroy => c.ConnectDestroyed(pollers[c.loop]);
      }
    }

    /** So for all connections together only its own state changes. */
    method OnItsLoop(c: Connection, deed: Deed)
      requires Objects() && Known(c, peers) && !c.freed
      modifies c, c.channel, pollers[c.loop]
      ensures Objects() && !c.freed
      ensures View() == Put(old(View()), c.number, Done(old(View()).peers[c.number], deed))
      ensures pollers[c.loop].known == old(pollers[c.loop].known)
    {
      ghost var s := View();
      AtItsPoller(c, deed);
      assert PeersView(peers, pollers) == s.peers[c.number := Done(s.peers[c.number], deed)];
    }

    method SetThread(l: nat, t: LoopThread)
      requires l < |threads|
      modifies this`threads
      ensures threads == old(threads)[l := t] && View() == WithLoop(old(View()), l, LoopOf(t))
      ensures old(PollersOk(pollers)) ==> PollersOk(pollers)
      ensures old(PeersOwn(peers, pollers)) ==> PeersOwn(peers, pollers)
    {
      ghost var s := View();
      LoopsUpdate(threads, l, t);
      threads := threads[l := t];
      assert PeersView(peers, pollers) == s.peers;
    }

    method QueueInLoop(l: nat, closure: Closure)
      requires Objects() && l < |threads| && Known(closure.conn, peers)
      modifies this`threads
      ensures Objects() && View() == Push(old(View()), l, TaskOf(closure))
    {
      assert RefersWell(threads[l], peers);
      TasksAppend(threads[l].queue, closure);
      SetThread(l, threads[l].(queue := threads[l].queue + [closure]));
    }

    /** The entry under the name of the connection goes, whatever it leads to; then the destruction is queued. */
    method RemoveConnectionInLoop(c: Connection)
      requires Objects() && Known(c, peers) && !c.freed
      modifies this`connections, this`threads, c`log
      ensures Objects() && View() == RemovedInLoop(old(View()), c.number)
    {
      RemovalInSteps(View(), c.number);
      Forget(c);
      QueueDestruction(c);
    }

    method Forget(c: Connection)
      requires Objects() && Known(c, peers) && !c.freed
      modifies this`connections, c`log
      ensures Objects() && View() == Put(Without(old(View()), c.name), c.number, old(View()).peers[c.number].Note(Erased))
    {
      Erase(c.name);
      Log(c, Erased);
    }

    method QueueDestruction(c: Connection)
      requires Objects() && Known(c, peers) && !c.freed
      modifies this`threads, c`log
      ensures Objects()
      ensures View() == Put(Push(old(View()), c.loop, TcpServers.Task.Destroy(c.number)), c.number,
                            old(View()).peers[c.number].Note(DestroyQueued))
    {
      QueueInLoop(c.loop, Closure(DoDestroy, c));
      Log(c, DestroyQueued);
    }

    static lemma RemovalInSteps(s: Server, c: nat)
      requires c < |s.peers| && s.peers[c].loop < |s.loops|
      ensures var k := s.peers[c];
              var e := Put(s.(connections := s.connections - {k.name}), c, k.Note(Erased));
              Put(Push(e, k.loop, TcpServers.Task.Destroy(c)), c, k.Note(Erased).Note(DestroyQueued)) == RemovedInLoop(s, c)
    {
    }

    method Erase(connName: string)
      requires Objects()
      modifies this`connections
      ensures Objects() && View() == Without(old(View()), connName)
    {
      OneNameLess(connections, connName, peers);
      DropName(connName);
    }

    method DropName(connName: string)
      modifies this`connections
      ensures connections == old(connections) - {connName} && View() == Without(old(View()), connName)
      ensures old(PollersOk(pollers)) ==> PollersOk(pollers)
      ensures old(PeersOwn(peers, pollers)) ==> PeersOwn(peers, pollers)
    {
      ghost var s := View();
      NumbersWithout(connections, connName);
      connections := connections - {connName};
      assert PeersView(peers, pollers) == s.peers;
    }

    ghost method Log(c: Connection, e: Event)
      requires Objects() && Known(c, peers) && !c.freed
      modifies c`log
      ensures Objects() && View() == Put(old(View()), c.number, old(View()).peers[c.number].Note(e))
    {
      c.log := c.log + [e];
    }

    method RemoveConnection(c: Connection)
      requires Objects() && Known(c, peers) && !c.freed && |threads| > 0
      modifies this`connections, this`threads, c`log
      ensures Objects() && View() == Removed(old(View()), c.number)
    {
      if c.loop == 0 {
        RemoveConnectionInLoop(c);
      } else {
        QueueInLoop(0, Closure(DoRemove, c));
      }
    }

    method MakeChannel(l: nat, fd: int) returns (channel: Pollers.Channel)
      requires Objects() && l < |threads| && forall k :: k in pollers[l].known ==> k.fd != fd
      modifies pollers[l]
      ensures Objects() && View() == old(View())
      ensures fresh(channel) && channel in pollers[l].known && pollers[l].EntryOf(channel) == Pollers.UNUSED
      ensures !channel.tied && channel.callbacks == {}
      ensures pollers[l].known == old(pollers[l].known) + {channel} && channel.fd == fd
    {
      ghost var s := View();
      channel := new Pollers.Channel(pollers[l], fd);
      assert PeersView(peers, pollers) == s.peers;
    }

    method MakeConnection(connName: string, l: nat, channel: Pollers.Channel) returns (c: Connection)
      requires Objects() && l < |threads|
      requires channel in pollers[l].known && pollers[l].EntryOf(channel) == Pollers.UNUSED && channel !in Channels(peers)
      requires !channel.tied && channel.callbacks == {}
      modifies channel`callbacks
      ensures Objects() && View() == old(View()) && fresh(c)
      ensures c.name == connName && c.number == |peers| && c.loop == l && c.channel == channel && !c.freed
      ensures PeerView(c, pollers) == Accepted(connName, l)
    {
      ghost var s := View();
      c := new Connection(connName, l, channel, |peers|);
      assert PeersView(peers, pollers) == s.peers;
    }

    method AddPeer(connName: string, l: nat, channel: Pollers.Channel) returns (c: Connection)
      requires Objects() && l < |threads|
      requires channel in pollers[l].known && pollers[l].EntryOf(channel) == Pollers.UNUSED && channel !in Channels(peers)
      requires !channel.tied && channel.callbacks == {}
      modifies this`peers, channel`callbacks
      ensures Objects() && fresh(c) && peers == old(peers) + [c]
      ensures c.name == connName && c.number == |old(peers)| && c.loop == l && c.channel == channel && !c.freed
      ensures View() == old(View()).(peers := old(View()).peers + [Accepted(connName, l)])
    {
      c := MakeConnection(connName, l, channel);
      JoinPeers(c);
    }

    ghost method JoinPeers(c: Connection)
      requires Objects() && c.number == |peers| && c.loop < |threads| && !c.freed
      requires c.channel in pollers[c.loop].known && c.channel !in Channels(peers)
      modifies this`peers
      ensures Objects() && peers == old(peers) + [c]
      ensures View() == old(View()).(peers := old(View()).peers + [PeerView(c, pollers)])
    {
      ghost var s := View();
      ReferencesStay(connections, threads, peers, c);
      peers := peers + [c];
      assert PeersView(peers, pollers) == s.peers + [PeerView(c, pollers)];
    }

    method Register(c: Connection)
      requires Objects() && Known(c, peers)
      modifies this`connections, this`nextConnectionId
      ensures Objects()
      ensures var s := old(View());
              View() == s.(nextId := s.nextId + 1, connections := s.connections[c.name := c.number])
    {
      ghost var s := View();
      NumbersWith(connections, c.name, c);
      connections := connections[c.name := c];
      nextConnectionId := nextConnectionId + 1;
      assert PeersView(peers, pollers) == s.peers;
    }

    /** The part of NewConnection before RunInLoop. */
    method AddConnection(l: nat, fd: int) returns (c: Connection)
      requires Objects() && l < |threads| && forall k :: k in pollers[l].known ==> k.fd != fd
      modifies this`peers, this`connections, this`nextConnectionId, pollers[l]
      ensures Objects() && fresh(c) && fresh(c.channel) && Known(c, peers) && !c.freed
      ensures c.loop == l && c.number == |old(peers)| && peers == old(peers) + [c]
      ensures pollers[l].known == old(pollers[l].known) + {c.channel} && c.channel.fd == fd
      ensures var s := old(View());
              var k := Accepted(NameOf(s.name, s.nextId), l);
              View() == s.(nextId := s.nextId + 1, connections := s.connections[k.name := |s.peers|], peers := s.peers + [k])
    {
      var channel := MakeChannel(l, fd);
      c := AddPeer(NameOf(name, nextConnectionId), l, channel);
      Register(c);
    }

    /** NewConnection, with the loop that GetNextLoop picks and the descriptor that accept returns. */
    method NewConnection(l: nat, fd: int) returns (c: Connection)
      requires Objects() && l < |threads| && forall k :: k in pollers[l].known ==> k.fd != fd
      modifies this, pollers[l]
      ensures Objects() && View() == Added(old(View()), l)
      ensures peers == old(peers) + [c] && fresh(c) && fresh(c.channel)
      ensures pollers[l].known == old(pollers[l].known) + {c.channel} && c.channel.fd == fd
    {
      c := AddConnection(l, fd);
      if l == 0 {
        OnItsLoop(c, ToEstablish);
      } else {
        QueueInLoop(l, Closure(DoEstablish, c));
      }
    }

    method SetTurn(l: nat, turn: Turn)
      requires Objects() && l < |threads| && RefersWell(LoopThread(turn, []), peers)
      modifies this`threads
      ensures Objects() && threads == old(threads)[l := old(threads)[l].(turn := turn)]
      ensures View() == SetPhase(old(View()), l, LoopOf(LoopThread(turn, [])).phase)
    {
      assert RefersWell(threads[l], peers);
      SetThread(l, threads[l].(turn := turn));
    }

    /** TcpConnection::HandleClose. */
    method HandleClose(c: Connection)
      requires Objects() && Known(c, peers) && !c.freed && |threads| > 0
      modifies this`connections, this`threads, c, c.channel, pollers[c.loop]
      ensures Objects() && !c.freed
      ensures View() == Removed(Put(old(View()), c.number, Closed(old(View()).peers[c.number])), c.number)
      ensures pollers[c.loop].known == old(pollers[c.loop].known)
    {
      OnItsLoop(c, ToClose);
      RemoveConnection(c);
    }

    /** While the connection is there, its callbacks for reading and writing as the events ask for them; none otherwise. */
    static predicate CallsRight(called: seq<Pollers.Callback>, ownerAlive: bool, revents: Pollers.Events) {
      if !ownerAlive then called == []
      else
        && (Pollers.OnRead in called <==> revents & 0x03 != 0) && (Pollers.OnWrite in called <==> revents & 0x04 != 0)
        && Pollers.OnClose !in called && Pollers.OnError !in called
    }

    /** Channel::HandleEvent. `ownerAlive` is what locking the weak pointer yields. */
    method CallBack(c: Connection, ownerAlive: bool) returns (called: seq<Pollers.Callback>)
      requires Objects() && c.channel.tied && c.channel.callbacks == {Pollers.OnRead, Pollers.OnWrite}
      ensures Objects() && View() == old(View())
      ensures Pollers.OnRead in called <==> ownerAlive && Pollers.Asks(c.channel.revents, Pollers.OnRead)
      ensures CallsRight(called, ownerAlive, c.channel.revents)
    {
      called := c.channel.HandleEvent(ownerAlive);
      assert called != [] ==> called[0] in called;
    }

    /** The connection is off the list, its callbacks are made, and it is closed if the one for reading finds the end. */
    method HandleConnection(l: nat, c: Connection, rest: seq<Connection>, atEnd: bool, ownerAlive: bool)
      returns (called: seq<Pollers.Callback>)
      requires Objects() && l < |threads| && threads[l].turn == Handling([c] + rest) && Known(c, peers) && !c.freed
      requires c.channel.tied && c.channel.callbacks == {Pollers.OnRead, Pollers.OnWrite}
      modifies this`connections, this`threads, c, c.channel, pollers[c.loop]
      ensures Objects() && !c.freed
      ensures View() == Ended(SetPhase(old(View()), l, Dispatching(NumbersOf(rest))), c.number,
                              ownerAlive && Pollers.Asks(old(c.channel.revents), Pollers.OnRead) && atEnd)
      ensures CallsRight(called, ownerAlive, old(c.channel.revents))
      ensures forall i :: 0 <= i < |pollers| ==> pollers[i].known == old(pollers[i].known)
    {
      TakeReady(l, c, rest);
      called := CallBack(c, ownerAlive);
      if Pollers.OnRead in called && atEnd {
        HandleClose(c);
      }
    }

    method TakeReady(l: nat, c: Connection, rest: seq<Connection>)
      requires Objects() && l < |threads| && threads[l].turn == Handling([c] + rest)
      modifies this`threads
      ensures Objects() && View() == SetPhase(old(View()), l, Dispatching(NumbersOf(rest)))
    {
      assert RefersWell(threads[l], peers);
      assert forall i :: 0 <= i < |rest| ==> rest[i] == ([c] + rest)[i + 1];
      SetTurn(l, Handling(rest));
    }

    method Call(closure: Closure)
      requires Objects() && Known(closure.conn, peers) && !closure.conn.freed
      modifies this`connections, this`threads, closure.conn, closure.conn.channel, pollers[closure.conn.loop]
      ensures Objects() && !closure.conn.freed && View() == Execute(old(View()), TaskOf(closure))
      ensures pollers[closure.conn.loop].known == old(pollers[closure.conn.loop].known)
    {
      match closure.work {
        case DoEstablish => OnItsLoop(closure.conn, ToEstablish);
        case DoRemove => RemoveConnectionInLoop(closure.conn);
        case DoDestroy => OnItsLoop(closure.conn, ToDestroy);
      }
    }

    /** A closure of a batch, run on the loop whose batch it is. */
    method RunClosure(l: nat, closure: Closure, ran: seq<Closure>, rest: seq<Closure>)
      requires Objects() && l < |threads| && threads[l].turn == Batch(ran, [closure] + rest)
      requires Known(closure.conn, peers) && !closure.conn.freed
      modifies this`connections, this`threads, closure.conn, closure.conn.channel, pollers[closure.conn.loop]
      ensures Objects() && !closure.conn.freed
      ensures var n := SetPhase(old(View()), l, Running(TasksOf(ran) + [TaskOf(closure)], TasksOf(rest)));
              View() == Execute(n, TaskOf(closure))
      ensures forall i :: 0 <= i < |pollers| ==> pollers[i].known == old(pollers[i].known)
    {
      TakeOff(l, closure, ran, rest);
      Call(closure);
    }

    /** The next closure of the batch is off the list. */
    method TakeOff(l: nat, closure: Closure, ran: seq<Closure>, rest: seq<Closure>)
      requires Objects() && l < |threads| && threads[l].turn == Batch(ran, [closure] + rest)
      modifies this`threads
      ensures Objects() && View() == SetPhase(old(View()), l, Running(TasksOf(ran) + [TaskOf(closure)], TasksOf(rest)))
    {
      assert RefersWell(threads[l], peers);
      StillKnown(ran, closure, rest, peers);
      TasksAppend(ran, closure);
      SetTurn(l, Batch(ran + [closure], rest));
    }

    // Whole steps, in every state that can be reached.

    /** The acceptor's callback. */
    method AcceptNext(l: nat, fd: int) returns (c: Connection)
      requires Valid() && Enabled(View(), TcpServers.Step.Accept(l)) && forall k :: k in pollers[l].known ==> k.fd != fd
      modifies this, pollers[l]
      ensures Valid() && View() == Apply(old(View()), TcpServers.Step.Accept(l))
      ensures peers == old(peers) + [c] && fresh(c) && fresh(c.channel)
      ensures pollers[l].known == old(pollers[l].known) + {c.channel} && c.channel.fd == fd
    {
      AcceptKeepsInv(View(), l);
      c := NewConnection(l, fd);
    }

    /**
      The next connection of a dispatch, with the events that were reported for its channel. Its
      callbacks for reading and writing are made, as far as the events ask for them, if it is still
      there, and none if it is gone.
     */
    method HandleNext(l: nat, c: Connection, rest: seq<Connection>, atEnd: bool, ownerAlive: bool)
      returns (called: seq<Pollers.Callback>)
      requires Valid() && l < |threads| && threads[l].turn == Handling([c] + rest)
      requires ownerAlive == Owned(View(), c.number)
      modifies this`connections, this`threads, c, c.channel, pollers
      ensures Valid() && old(Enabled(View(), HandleEvent(l, c.channel.revents, atEnd)))
      ensures View() == Apply(old(View()), HandleEvent(l, old(c.channel.revents), atEnd))
      ensures CallsRight(called, ownerAlive, old(c.channel.revents))
      ensures forall i :: 0 <= i < |pollers| ==> pollers[i].known == old(pollers[i].known)
    {
      WiredAndTied(l, c, rest, ownerAlive);
      ReadyToHandle(l, c, rest, c.channel.revents, atEnd);
      called := HandleConnection(l, c, rest, atEnd, ownerAlive);
    }

    /** What is handled is tied, and still there. */
    lemma WiredAndTied(l: nat, c: Connection, rest: seq<Connection>, ownerAlive: bool)
      requires Valid() && l < |threads| && threads[l].turn == Handling([c] + rest) && ownerAlive == Owned(View(), c.number)
      ensures c.channel.tied && c.channel.callbacks == {Pollers.OnRead, Pollers.OnWrite} && ownerAlive
    {
      FirstHandled(threads[l], c, rest, peers);
      HandledIsUp(View(), l);
      NotFreedBefore(peers, pollers, c);
    }

    lemma ReadyToHandle(l: nat, c: Connection, rest: seq<Connection>, revents: Pollers.Events, atEnd: bool)
      requires Valid() && l < |threads| && threads[l].turn == Handling([c] + rest)
      ensures Known(c, peers) && !c.freed && c.loop < |pollers| && Enabled(View(), HandleEvent(l, revents, atEnd))
      ensures var n := SetPhase(View(), l, Dispatching(NumbersOf(rest)));
              && c.number < |n.peers| && n.peers[c.number].loop < |n.loops|
              && Apply(View(), HandleEvent(l, revents, atEnd))
                 == Ended(n, c.number, Pollers.Asks(revents, Pollers.OnRead) && atEnd)
      ensures Inv(Apply(View(), HandleEvent(l, revents, atEnd)))
    {
      FirstHandled(threads[l], c, rest, peers);
      HandlingStep(View(), l, c.number, NumbersOf(rest), revents, atEnd);
      NotFreedBefore(peers, pollers, c);
    }

    lemma ReadyToRun(l: nat, ran: seq<Closure>, closure: Closure, rest: seq<Closure>)
      requires Valid() && l < |threads| && threads[l].turn == Batch(ran, [closure] + rest)
      ensures Known(closure.conn, peers) && !closure.conn.freed && closure.conn.loop < |pollers|
      ensures var n := SetPhase(View(), l, Running(TasksOf(ran) + [TaskOf(closure)], TasksOf(rest)));
              && Enabled(View(), RunTask(l)) && TaskOf(closure).c < |n.peers| && n.peers[TaskOf(closure).c].loop < |n.loops|
              && Apply(View(), RunTask(l)) == Execute(n, TaskOf(closure)) && Inv(Apply(View(), RunTask(l)))
    {
      FirstRun(threads[l], ran, closure, rest, peers);
      RunningStep(View(), l, TasksOf(ran), TaskOf(closure), TasksOf(rest));
      NotFreedBefore(peers, pollers, closure.conn);
    }

    /** The next closure of a batch. */
    method RunNext(l: nat, ran: seq<Closure>, closure: Closure, rest: seq<Closure>)
      requires Valid() && l < |threads| && threads[l].turn == Batch(ran, [closure] + rest)
      modifies this`connections, this`threads, closure.conn, closure.conn.channel, pollers
      ensures Valid() && old(Enabled(View(), RunTask(l))) && View() == Apply(old(View()), RunTask(l))
      ensures forall i :: 0 <= i < |pollers| ==> pollers[i].known == old(pollers[i].known)
    {
      ReadyToRun(l, ran, closure, rest);
      RunClosure(l, closure, ran, rest);
    }

    /** The poll returns; `active` are the connections whose channels it reports, `reported` the events of each. */
    method PollReturns(l: nat, active: seq<Connection>, reported: seq<Pollers.Events>)
      requires Valid() && Enabled(View(), TcpServers.Step.PollReturns(l, NumbersOf(active)))
      requires |reported| == |active| && forall i :: 0 <= i < |active| ==> Known(active[i], peers)
      modifies this`threads, (set c | c in active :: c.channel)`revents
      ensures Valid() && View() == Apply(old(View()), TcpServers.Step.PollReturns(l, NumbersOf(active)))
      ensures forall i :: 0 <= i < |active| ==> active[i].channel.revents == reported[i]
    {
      StepKeepsInv(View(), TcpServers.Step.PollReturns(l, NumbersOf(active)));
      ChannelsDiffer(active, peers, pollers);
      FillActive(active, reported);
      SetTurn(l, Handling(active));
    }

    /** FillActiveChannels. */
    method FillActive(active: seq<Connection>, reported: seq<Pollers.Events>)
      requires Objects() && |reported| == |active|
      requires forall i, j :: 0 <= i < j < |active| ==> active[i].channel != active[j].channel
      modifies (set c | c in active :: c.channel)`revents
      ensures Objects() && View() == old(View())
      ensures forall i :: 0 <= i < |active| ==> active[i].channel.revents == reported[i]
    {
      for i := 0 to |active|
        invariant Objects() && View() == old(View())
        invariant forall j :: 0 <= j < i ==> active[j].channel.revents == reported[j]
      {
        Report(active[i].channel, reported[i]);
      }
    }

    method Report(channel: Pollers.Channel, revents: Pollers.Events)
      requires Objects()
      modifies channel`revents
      ensures Objects() && View() == old(View()) && channel.revents == revents
    {
      ghost var s := View();
      channel.revents := revents;
      assert PeersView(peers, pollers) == s.peers;
    }

    /** The dispatch is over: the loop swaps its queue out, or polls again when that is empty. */
    method EndDispatch(l: nat)
      requires Valid() && Enabled(View(), TcpServers.Step.EndDispatch(l))
      modifies this`threads
      ensures Valid() && View() == Apply(old(View()), TcpServers.Step.EndDispatch(l))
    {
      StepKeepsInv(View(), TcpServers.Step.EndDispatch(l));
      Swap(l);
    }

    method Swap(l: nat)
      requires Objects() && l < |threads|
      modifies this`threads
      ensures Objects() && View() == Swapped(old(View()), l)
    {
      assert RefersWell(threads[l], peers);
      var queue := threads[l].queue;
      if queue == [] {
        SetTurn(l, Waiting);
      } else {
        SetThread(l, LoopThread(Batch([], queue), []));
      }
    }

    /** The batch is thrown away, and its references with it. */
    method EndBatch(l: nat)
      requires Valid() && Enabled(View(), TcpServers.Step.EndBatch(l))
      modifies this`threads
      ensures Valid() && View() == Apply(old(View()), TcpServers.Step.EndBatch(l))
    {
      StepKeepsInv(View(), TcpServers.Step.EndBatch(l));
      SetTurn(l, Waiting);
    }

    ghost method MarkFreed(c: Connection)
      requires Objects() && Known(c, peers) && !c.freed && c.log == LIFE
      requires View().peers[c.number].channel == Pollers.UNUSED
      modifies c`freed
      ensures Objects() && c.freed && View() == old(View())
    {
      ghost var s := View();
      c.freed := true;
      assert PeersView(peers, pollers) == s.peers;
    }

    /** The channel goes with its connection; the poller has nothing of it. */
    method DropChannel(c: Connection)
      requires Objects() && Known(c, peers) && c.freed
      requires c.channel in pollers[c.loop].known && c.channel.state == Pollers.NEW
      modifies pollers[c.loop]
      ensures Objects() && View() == old(View())
      ensures pollers[c.loop].known == old(pollers[c.loop].known) - {c.channel}
      ensures forall k :: k in pollers[c.loop].known ==> k.fd != c.channel.fd
    {
      ghost var s := View();
      c.channel.Drop(pollers[c.loop]);
      assert PeersView(peers, pollers) == s.peers;
    }

    /**
      The last reference to a connection is gone, and the destructor runs: its channel is in no map
      and no set, so nothing can lead to it any more, and its descriptor may be used again.
     */
    method Free(c: Connection)
      requires Valid() && Known(c, peers) && !c.freed && !Owned(View(), c.number)
      modifies c`freed, pollers[c.loop]
      ensures Valid() && c.freed && View() == old(View())
      ensures pollers[c.loop].known == old(pollers[c.loop].known) - {c.channel}
      ensures forall k :: k in pollers[c.loop].known ==> k.fd != c.channel.fd
    {
      UnownedIsDone(View(), c.number);
      assert View().peers[c.number] == c.View(pollers[c.loop]);
      MarkFreed(c);
      DropChannel(c);
    }
  }
}
