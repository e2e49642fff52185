/**
  Channels and the poller (src/net/Channel.cpp, src/net/Poller.cpp): a channel's events_ and state_,
  the map channels_, and the kernel's interest set must tell the same story about each descriptor.

  Operations on a channel concern its own descriptor only, so an `Entry` gathers what all three
  know about one. epoll_ctl fails with EEXIST or ENOENT when its operation does not fit; `faults`
  counts that.
 */
module Pollers {
  import opened Wrappers

  type Events = bv8

  const POLLIN: Events := 0x01
  const POLLPRI: Events := 0x02
  const POLLOUT: Events := 0x04
  const POLLERR: Events := 0x08
  const POLLHUP: Events := 0x10
  const READ_EVENTS: Events := POLLIN | POLLPRI

  datatype ChannelState = NEW | ADD | DELETED

  datatype Entry = Entry(events: Events, state: ChannelState, mapped: bool, kernel: Option<Events>, faults: nat)

  const UNUSED := Entry(0, NEW, false, None, 0)

  datatype CtlOp = CtlAdd | CtlMod | CtlDel

  /** epoll_ctl on one descriptor. */
  function Ctl(e: Entry, op: CtlOp): Entry {
    match op
    case CtlAdd => if e.kernel.None? then e.(kernel := Some(e.events)) else e.(faults := e.faults + 1)
    case CtlMod => if e.kernel.Some? then e.(kernel := Some(e.events)) else e.(faults := e.faults + 1)
    case CtlDel => if e.kernel.Some? then e.(kernel := None) else e.(faults := e.faults + 1)
  }

  /** Poller::UpdateChannel. */
  function Updated(e: Entry): Entry {
    if e.state == NEW || e.state == DELETED then
      Ctl(e.(mapped := e.mapped || e.state == NEW, state := ADD), CtlAdd)
    else if e.events == 0 then Ctl(e, CtlDel).(state := DELETED)
    else Ctl(e, CtlMod)
  }

  /** Poller::RemoveChannel. */
  function Removed(e: Entry): Entry {
    var erased := e.(mapped := false);
    (if e.state == ADD then Ctl(erased, CtlDel) else erased).(state := NEW)
  }

  datatype Operation = EnableReading | DisableReading | EnableWriting | DisableWriting | DisableAll | Remove

  function NewEvents(events: Events, op: Operation): Events {
    match op
    case EnableReading => events | READ_EVENTS
    case DisableReading => events & !READ_EVENTS
    case EnableWriting => events | POLLOUT
    case DisableWriting => events & !POLLOUT
    case DisableAll => 0
    case Remove => events
  }

  function Apply(e: Entry, op: Operation): Entry {
    if op == Remove then Removed(e) else Updated(e.(events := NewEvents(e.events, op)))
  }

  /** The three views agree, and no epoll_ctl has failed. */
  predicate Agrees(e: Entry) {
    && (e.kernel.Some? <==> e.state == ADD)
    && (e.kernel.Some? ==> e.kernel.value == e.events)
    && (e.mapped <==> e.state != NEW)
    && (e.state == DELETED ==> e.events == 0)
    && e.faults == 0
  }

  /** As Agrees, but the events have just been changed and not been passed on. */
  predicate Stale(e: Entry) {
    && (e.kernel.Some? <==> e.state == ADD)
    && (e.mapped <==> e.state != NEW)
    && e.faults == 0
  }

  lemma UpdateRestores(e: Entry)
    requires Stale(e)
    ensures Agrees(Updated(e)) && Updated(e).events == e.events
  {
  }

  function AfterAll(world: map<int, Entry>, ops: seq<(int, Operation)>): map<int, Entry>
    decreases |ops|
  {
    if ops == [] then world
    else
      var (fd, op) := ops[0];
      AfterAll(world[fd := Apply(if fd in world then world[fd] else UNUSED, op)], ops[1..])
  }

  ghost predicate AllAgree(world: map<int, Entry>) {
    forall fd :: fd in world ==> Agrees(world[fd])
  }

  /**
    Over every sequence of operations on channels with different descriptors: the interest set has
    a descriptor exactly when its channel's state is ADD, and then with the channel's events;
    channels_ has it exactly when the state is not NEW; and epoll_ctl never fails.
   */
  lemma {:induction false} KernelAgreement(world: map<int, Entry>, ops: seq<(int, Operation)>)
    requires AllAgree(world)
    ensures AllAgree(AfterAll(world, ops))
    decreases |ops|
  {
    if ops != [] {
      var (fd, op) := ops[0];
      var e := if fd in world then world[fd] else UNUSED;
      if op != Remove {
        UpdateRestores(e.(events := NewEvents(e.events, op)));
      }
      KernelAgreement(world[fd := Apply(e, op)], ops[1..]);
    }
  }

  /**
    A channel stays registered for no event at all exactly when its events were taken away while
    it was not registered: the update then adds it with an empty mask. From ADD it is deleted.
   */
  lemma EmptyRegistrationIff(e: Entry, op: Operation)
    requires Agrees(e) && op != Remove && NewEvents(e.events, op) == 0
    ensures var n := Apply(e, op);
            && (n.state == ADD && n.kernel == Some(0) <==> e.state != ADD)
            && (n.state == DELETED && n.kernel == None <==> e.state == ADD)
  {
  }

  /** DisableAll on a channel that was never registered puts it into the kernel's set. */
  lemma EmptyRegistrationGap()
    ensures Apply(UNUSED, DisableAll) == Entry(0, ADD, true, Some(0), 0)
  {
  }

  /**
    The bits an operation sets and clears, and that it leaves the others alone: reading is POLLIN and
    POLLPRI, writing is POLLOUT, by their numbers in poll.h.
   */
  lemma SwitchesExactly(e: Events)
    ensures NewEvents(e, EnableReading) & 0x03 == 0x03 && NewEvents(e, EnableReading) & 0xFC == e & 0xFC
    ensures NewEvents(e, DisableReading) & 0x03 == 0 && NewEvents(e, DisableReading) & 0xFC == e & 0xFC
    ensures NewEvents(e, EnableWriting) & 0x04 == 0x04 && NewEvents(e, EnableWriting) & 0xFB == e & 0xFB
    ensures NewEvents(e, DisableWriting) & 0x04 == 0 && NewEvents(e, DisableWriting) & 0xFB == e & 0xFB
    ensures NewEvents(e, DisableAll) == 0 && NewEvents(e, Remove) == e
  {
  }

  /** epoll_ctl fails, and then changes nothing, exactly when it would add what is there or change or delete what is not. */
  lemma CtlFailsIff(e: Entry, op: CtlOp)
    ensures var n := Ctl(e, op);
            && (n.faults > e.faults <==> (op == CtlAdd <==> e.kernel.Some?))
            && (n.faults > e.faults ==> n == e.(faults := e.faults + 1))
            && (n.faults <= e.faults ==> n == e.(kernel := if op == CtlDel then None else Some(e.events)))
  {
  }

  // ---------------------------------------------------------------------------------------------
  // What is reported
  // ---------------------------------------------------------------------------------------------

  datatype Callback = OnClose | OnError | OnRead | OnWrite

  /** What the events that were reported ask for. */
  predicate Asks(revents: Events, c: Callback) {
    match c
    case OnClose => revents & POLLHUP != 0 && revents & POLLIN == 0
    case OnError => revents & POLLERR != 0
    case OnRead => revents & READ_EVENTS != 0
    case OnWrite => revents & POLLOUT != 0
  }

  /** The events by their numbers in poll.h. */
  lemma AskedFor(revents: Events)
    ensures Asks(revents, OnClose) <==> revents & 0x11 == 0x10
    ensures Asks(revents, OnError) <==> revents & 0x08 != 0
    ensures Asks(revents, OnRead) <==> revents & 0x03 != 0
    ensures Asks(revents, OnWrite) <==> revents & 0x04 != 0
  {
  }

  // ---------------------------------------------------------------------------------------------
  // The code
  // ---------------------------------------------------------------------------------------------

  class Channel {
    const fd: int
    var events: Events
    var revents: Events
    var state: ChannelState
    var tied: bool
    /** The callbacks that have been set. */
    var callbacks: set<Callback>

    /** A new channel for a descriptor that no other channel of the loop has. */
    constructor (poller: Poller, fd: int)
      requires poller.Valid() && forall c :: c in poller.known ==> c.fd != fd
      modifies poller`known
      ensures this.fd == fd && events == 0 && revents == 0 && state == NEW && !tied && callbacks == {}
      ensures poller.Valid() && poller.known == old(poller.known) + {this} && poller.EntryOf(this) == UNUSED
      ensures forall c :: c in old(poller.known) ==> poller.EntryOf(c) == old(poller.EntryOf(c))
    {
      this.fd := fd;
      events, revents, state, tied, callbacks := 0, 0, NEW, false, {};
      new;
      poller.known := poller.known + {this};
    }

    /** The end of a channel, which has to have been removed: its descriptor may be used again. */
    method Drop(poller: Poller)
      requires poller.Valid() && this in poller.known && state == NEW
      modifies poller`known
      ensures poller.Valid() && poller.known == old(poller.known) - {this}
      ensures forall c :: c in poller.known ==> c.fd != fd
    {
      assert poller.EntryOf(this).state == NEW;
      poller.known := poller.known - {this};
    }

    method SetCallback(c: Callback)
      modifies this`callbacks
      ensures callbacks == old(callbacks) + {c}
    {
      callbacks := callbacks + {c};
    }

    /** HandleEvent: the callbacks made, in order. `ownerAlive` is what locking the weak pointer yields. */
    method HandleEvent(ownerAlive: bool) returns (called: seq<Callback>)
      ensures forall c :: c in called <==> (!tied || ownerAlive) && c in callbacks && Asks(revents, c)
      ensures forall i, j :: 0 <= i < j < |called| ==> Rank(called[i]) < Rank(called[j])
    {
      called := [];
      if !tied || ownerAlive {
        if revents & POLLHUP != 0 && revents & POLLIN == 0 {
          if OnClose in callbacks {
            called := called + [OnClose];
          }
        }
        if revents & POLLERR != 0 {
          if OnError in callbacks {
            called := called + [OnError];
          }
        }
        if revents & (POLLIN | POLLPRI) != 0 {
          if OnRead in callbacks {
            called := called + [OnRead];
          }
        }
        if revents & POLLOUT != 0 {
          if OnWrite in callbacks {
            called := called + [OnWrite];
          }
        }
      }
    }

    static function Rank(c: Callback): nat {
      match c
      case OnClose => 0
      case OnError => 1
      case OnRead => 2
      case OnWrite => 3
    }

    /** update(): passes the events on to the loop's poller. */
    method Update(poller: Poller)
      requires poller.Pointers() && this in poller.known && Stale(poller.EntryOf(this))
      requires forall c :: c in poller.known && c != this ==> Agrees(poller.EntryOf(c))
      modifies this`events, this`state, poller
      ensures poller.Valid() && poller.known == old(poller.known)
      ensures poller.EntryOf(this) == Updated(old(poller.EntryOf(this)))
      ensures forall c :: c in poller.known && c != this ==> poller.EntryOf(c) == old(poller.EntryOf(c))
    {
      UpdateRestores(poller.EntryOf(this));
      poller.UpdateChannel(this);
    }

    method EnableReading(poller: Poller)
      requires poller.Valid() && this in poller.known
      modifies this`events, this`state, poller
      ensures poller.Valid() && poller.known == old(poller.known)
      ensures poller.EntryOf(this) == Apply(old(poller.EntryOf(this)), Operation.EnableReading)
      ensures forall c :: c in poller.known && c != this ==> poller.EntryOf(c) == old(poller.EntryOf(c))
    {
      events := events | READ_EVENTS;
      assert events == NewEvents(old(events), Operation.EnableReading);
      Update(poller);
    }

    method DisableReading(poller: Poller)
      requires poller.Valid() && this in poller.known
      modifies this`events, this`state, poller
      ensures poller.Valid() && poller.known == old(poller.known)
      ensures poller.EntryOf(this) == Apply(old(poller.EntryOf(this)), Operation.DisableReading)
      ensures forall c :: c in poller.known && c != this ==> poller.EntryOf(c) == old(poller.EntryOf(c))
    {
      events := events & !READ_EVENTS;
      assert events == NewEvents(old(events), Operation.DisableReading);
      Update(poller);
    }

    method EnableWriting(poller: Poller)
      requires poller.Valid() && this in poller.known
      modifies this`events, this`state, poller
      ensures poller.Valid() && poller.known == old(poller.known)
      ensures poller.EntryOf(this) == Apply(old(poller.EntryOf(this)), Operation.EnableWriting)
      ensures forall c :: c in poller.known && c != this ==> poller.EntryOf(c) == old(poller.EntryOf(c))
    {
      events := events | POLLOUT;
      assert events == NewEvents(old(events), Operation.EnableWriting);
      Update(poller);
    }

    method DisableWriting(poller: Poller)
      requires poller.Valid() && this in poller.known
      modifies this`events, this`state, poller
      ensures poller.Valid() && poller.known == old(poller.known)
      ensures poller.EntryOf(this) == Apply(old(poller.EntryOf(this)), Operation.DisableWriting)
      ensures forall c :: c in poller.known && c != this ==> poller.EntryOf(c) == old(poller.EntryOf(c))
    {
      events := events & !POLLOUT;
      assert events == NewEvents(old(events), Operation.DisableWriting);
      Update(poller);
    }

    method DisableAll(poller: Poller)
      requires poller.Valid() && this in poller.known
      modifies this`events, this`state, poller
      ensures poller.Valid() && poller.known == old(poller.known)
      ensures poller.EntryOf(this) == Apply(old(poller.EntryOf(this)), Operation.DisableAll)
      ensures forall c :: c in poller.known && c != this ==> poller.EntryOf(c) == old(poller.EntryOf(c))
    {
      events := 0;
      Update(poller);
    }

    method Remove(poller: Poller)
      requires poller.Valid() && this in poller.known
      modifies this`events, this`state, poller
      ensures poller.Valid() && poller.known == old(poller.known)
      ensures poller.EntryOf(this) == Apply(old(poller.EntryOf(this)), Operation.Remove)
      ensures forall c :: c in poller.known && c != this ==> poller.EntryOf(c) == old(poller.EntryOf(c))
    {
      poller.RemoveChannel(this);
    }
  }

  class Poller {
    var channels: map<int, Channel>
    /** The kernel's interest set: mask and data.ptr of each descriptor. */
    var interest: map<int, (Events, Channel)>
    ghost var faults: map<Channel, nat>
    /** The channels of this loop that exist, registered or not; no two have the same descriptor. */
    ghost var known: set<Channel>

    ghost function EntryOf(c: Channel): Entry
      reads this, c
    {
      Entry(c.events, c.state, c.fd in channels,
            if c.fd in interest then Some(interest[c.fd].0) else None,
            if c in faults then faults[c] else 0)
    }

    /** All pointers held under a descriptor are to its channel. */
    ghost predicate Pointers()
      reads this, known
    {
      && (forall c, d :: c in known && d in known && c.fd == d.fd ==> c == d)
      && (forall fd :: fd in channels ==> channels[fd] in known && channels[fd].fd == fd)
      && (forall fd :: fd in interest ==> interest[fd].1 in known && interest[fd].1.fd == fd)
    }

    /** What is registered under a descriptor is the channel with that descriptor. */
    lemma Registered(fd: int)
      requires Pointers() && fd in interest
      ensures interest[fd].1 in known && interest[fd].1.fd == fd
    {
    }

    ghost predicate Valid()
      reads this, known
    {
      Pointers() && forall c :: c in known ==> Agrees(EntryOf(c))
    }

    constructor ()
      ensures Valid() && known == {} && channels == map[] && interest == map[] && faults == map[]
    {
      channels, interest, faults, known := map[], map[], map[], {};
    }

    method UpdateChannel(channel: Channel)
      requires Pointers() && channel in known
      modifies this`channels, this`interest, this`faults, channel`state
      ensures Pointers()
      ensures EntryOf(channel) == Updated(old(EntryOf(channel)))
      ensures forall c :: c in known && c != channel ==> EntryOf(c) == old(EntryOf(c))
    {
      if channel.state == NEW || channel.state == DELETED {
        if channel.state == NEW {
          channels := channels[channel.fd := channel];
        }
        channel.state := ADD;
        EpollCtl(CtlAdd, channel);
      } else if channel.events == 0 {
        EpollCtl(CtlDel, channel);
        channel.state := DELETED;
      } else {
        EpollCtl(CtlMod, channel);
      }
    }

    method RemoveChannel(channel: Channel)
      requires Pointers() && channel in known
      modifies this`channels, this`interest, this`faults, channel`state
      ensures Pointers()
      ensures EntryOf(channel) == Removed(old(EntryOf(channel)))
      ensures forall c :: c in known && c != channel ==> EntryOf(c) == old(EntryOf(c))
    {
      channels := channels - {channel.fd};
      if channel.state == ADD {
        EpollCtl(CtlDel, channel);
      }
      channel.state := NEW;
    }

    /** Poller::update with the kernel behind it. */
    method EpollCtl(op: CtlOp, channel: Channel)
      requires Pointers() && channel in known
      modifies this`interest, this`faults
      ensures Pointers()
      ensures EntryOf(channel) == Ctl(old(EntryOf(channel)), op)
      ensures forall c :: c in known && c != channel ==> EntryOf(c) == old(EntryOf(c))
    {
      var fd := channel.fd;
      var registered := fd in interest;
      if (op == CtlAdd && !registered) || (op == CtlMod && registered) {
        interest := interest[fd := (channel.events, channel)];
      } else if op == CtlDel && registered {
        interest := interest - {fd};
      } else {
        faults := faults[channel := (if channel in faults then faults[channel] else 0) + 1];
      }
    }

    /**
      epoll_wait and FillActiveChannels. The kernel reports `ready`, different descriptors of the
      interest set with their events; every channel handed out is one that channels_ still has.
     */
    method Poll(ready: seq<(int, Events)>) returns (active: seq<Channel>)
      requires Valid()
      requires forall i :: 0 <= i < |ready| ==> ready[i].0 in interest
      requires forall i, j :: 0 <= i < j < |ready| ==> ready[i].0 != ready[j].0
      modifies known`revents
      ensures Valid() && |active| == |ready|
      ensures forall i :: 0 <= i < |ready| ==>
        && active[i].fd == ready[i].0 && active[i].revents == ready[i].1
        && active[i].state == ADD && ready[i].0 in channels && channels[ready[i].0] == active[i]
    {
      active := [];
      for i := 0 to |ready|
        invariant |active| == i && Valid()
        invariant forall k :: 0 <= k < i ==>
          active[k] in known && active[k].fd == ready[k].0 && active[k].revents == ready[k].1
      {
        Registered(ready[i].0);
        var (mask, channel) := interest[ready[i].0];
        channel.revents := ready[i].1;
        active := active + [channel];
      }
      forall i | 0 <= i < |ready|
        ensures active[i].state == ADD && ready[i].0 in channels && channels[ready[i].0] == active[i]
      {
        assert Agrees(EntryOf(active[i]));
      }
    }
  }
}
