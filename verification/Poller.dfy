/**
 Channels and the poller that mirrors them in the kernel's epoll interest set.
 */
module Pollers {

  datatype Index = New | Added | Deleted

  // The part of an epoll event mask that channels ask for
  datatype Mask = Mask(reading: bool, writing: bool)

  const NONE := Mask(false, false)

  // The events epoll reports for one descriptor
  datatype Revents = Revents(pollIn: bool, pollPri: bool, pollRdHup: bool, pollOut: bool, pollHup: bool, pollErr: bool)

  datatype Callback = CloseCallback | ReadCallback | WriteCallback | ErrorCallback

  // epoll reports what is in the mask, and hang-up and error unasked.
  predicate Reportable(m: Mask, r: Revents) {
    (r.pollIn ==> m.reading) && (r.pollOut ==> m.writing) && !r.pollPri && !r.pollRdHup
  }

  // -------- the kernel's side --------

  datatype Op = ADD | MOD | DEL

  // epoll_ctl succeeds unless it adds a known descriptor, or changes or deletes an unknown one.
  predicate CtlSucceeds(kernel: map<int, Mask>, op: Op, fd: int) {
    match op
    case ADD => fd !in kernel
    case MOD => fd in kernel
    case DEL => fd in kernel
  }

  function Ctl(kernel: map<int, Mask>, op: Op, fd: int, m: Mask): map<int, Mask> {
    if !CtlSucceeds(kernel, op, fd) then kernel
    else if op == DEL then kernel - {fd}
    else kernel[fd := m]
  }

  // What an update makes of a channel's index, and of the kernel's interest set
  function NextIndex(index: Index, m: Mask): Index { if index == Added && m == NONE then Deleted else Added }

  function NextKernel(kernel: map<int, Mask>, fd: int, index: Index, m: Mask): map<int, Mask> {
    if NextIndex(index, m) == Deleted then kernel - {fd} else kernel[fd := m]
  }

  // -------- channels --------

  class Channel {
    const fd: int
    var events: Mask
    var revents: Revents
    var index: Index
    var addedToLoop: bool

    constructor (fd: int)
      ensures this.fd == fd && events == NONE && index == New && !addedToLoop
    {
      this.fd := fd;
      events := NONE;
      revents := Revents(false, false, false, false, false, false);
      index := New;
      addedToLoop := false;
    }

    // Every change of the mask goes through here.
    method Update(p: Poller, mask: Mask)
      requires p.Valid() && this in p.own && (index == New ==> fd !in p.channels)
      modifies this`events, this`addedToLoop, this`index, p`channels, p`kernel
      ensures p.Valid() && events == mask && addedToLoop
      ensures index == if old(index) == Added && mask == NONE then Deleted else Added
      ensures p.channels == old(p.channels)[fd := this]
      ensures p.kernel == if index == Deleted then old(p.kernel) - {fd} else old(p.kernel)[fd := mask]
    {
      events := mask;
      addedToLoop := true;
      p.UpdateChannel(this);
    }

    method EnableReading(p: Poller)
      requires p.Valid() && this in p.own && (index == New ==> fd !in p.channels)
      modifies this`events, this`addedToLoop, this`index, p`channels, p`kernel
      ensures p.Valid() && events == Mask(true, old(events.writing)) && index == Added
      ensures p.channels == old(p.channels)[fd := this] && p.kernel == old(p.kernel)[fd := events]
    {
      Update(p, events.(reading := true));
    }

    method DisableReading(p: Poller)
      requires p.Valid() && this in p.own && (index == New ==> fd !in p.channels)
      modifies this`events, this`addedToLoop, this`index, p`channels, p`kernel
      ensures p.Valid() && events == Mask(false, old(events.writing))
      ensures old(index) == Added ==> (index == Added <==> events.writing)
      ensures p.channels == old(p.channels)[fd := this]
      ensures fd in p.kernel <==> index == Added
    {
      Update(p, events.(reading := false));
    }

    method EnableWriting(p: Poller)
      requires p.Valid() && this in p.own && (index == New ==> fd !in p.channels)
      modifies this`events, this`addedToLoop, this`index, p`channels, p`kernel
      ensures p.Valid() && events == Mask(old(events.reading), true) && index == Added
      ensures p.channels == old(p.channels)[fd := this] && p.kernel == old(p.kernel)[fd := events]
    {
      Update(p, events.(writing := true));
    }

    method DisableWriting(p: Poller)
      requires p.Valid() && this in p.own && (index == New ==> fd !in p.channels)
      modifies this`events, this`addedToLoop, this`index, p`channels, p`kernel
      ensures p.Valid() && events == Mask(old(events.reading), false)
      ensures old(index) == Added ==> (index == Added <==> events.reading)
      ensures p.channels == old(p.channels)[fd := this]
      ensures fd in p.kernel <==> index == Added
    {
      Update(p, events.(writing := false));
    }

    method DisableAll(p: Poller)
      requires p.Valid() && this in p.own && (index == New ==> fd !in p.channels)
      modifies this`events, this`addedToLoop, this`index, p`channels, p`kernel
      ensures p.Valid() && events == NONE
      ensures index == if old(index) == Added then Deleted else Added
      ensures p.channels == old(p.channels)[fd := this]
      ensures fd in p.kernel <==> index == Added
    {
      Update(p, NONE);
    }

    method Remove(p: Poller)
      requires p.Valid() && this in p.own && events == NONE && index != New
      modifies this`addedToLoop, this`index, p`channels, p`kernel
      ensures p.Valid() && index == New && !addedToLoop
      ensures p.channels == old(p.channels) - {fd} && p.kernel == old(p.kernel) - {fd}
    {
      addedToLoop := false;
      p.RemoveChannel(this);
    }

    // The callbacks that handleEvent makes for what was reported, in this order
    function Dispatch(): (called: seq<Callback>)
      reads this
    {
      (if revents.pollHup && !revents.pollIn then [CloseCallback] else [])
      + (if revents.pollIn || revents.pollPri || revents.pollRdHup then [ReadCallback] else [])
      + (if revents.pollOut then [WriteCallback] else [])
      + (if revents.pollErr then [ErrorCallback] else [])
    }
  }

  // Of the events epoll can report for a channel, none makes both the close callback and the read
  // callback, which may close too; and the error callback always comes last.
  lemma DispatchOnce(c: Channel)
    requires Reportable(c.events, c.revents)
    ensures !(CloseCallback in c.Dispatch() && ReadCallback in c.Dispatch())
    ensures forall i, j :: 0 <= i < j < |c.Dispatch()| ==> c.Dispatch()[i] != c.Dispatch()[j]
    ensures ErrorCallback in c.Dispatch() ==> c.Dispatch()[|c.Dispatch()| - 1] == ErrorCallback
    ensures ReadCallback in c.Dispatch() ==> c.events.reading
    ensures WriteCallback in c.Dispatch() ==> c.events.writing
  {
    assert c.revents.pollErr ==> c.Dispatch()[|c.Dispatch()| - 1] == ErrorCallback;
  }

  function Order(b: Callback): nat {
    match b case CloseCallback => 0 case ReadCallback => 1 case WriteCallback => 2 case ErrorCallback => 3
  }

  // Nothing that epoll can report goes unanswered, and nothing else is answered: what there is to read
  // before what there is to write, and errors last.
  lemma NothingUnanswered(c: Channel)
    requires Reportable(c.events, c.revents)
    ensures ReadCallback in c.Dispatch() <==> c.revents.pollIn
    ensures WriteCallback in c.Dispatch() <==> c.revents.pollOut
    ensures ErrorCallback in c.Dispatch() <==> c.revents.pollErr
    ensures CloseCallback in c.Dispatch() <==> c.revents.pollHup && !c.revents.pollIn
    ensures c.revents.pollHup ==> CloseCallback in c.Dispatch() || ReadCallback in c.Dispatch()
    ensures forall i, j :: 0 <= i < j < |c.Dispatch()| ==> Order(c.Dispatch()[i]) < Order(c.Dispatch()[j])
  {
    var r := c.revents;
    var close: seq<Callback> := if r.pollHup && !r.pollIn then [CloseCallback] else [];
    var read: seq<Callback> := if r.pollIn then [ReadCallback] else [];
    assert ReadCallback in read <==> r.pollIn;
    assert CloseCallback in close <==> r.pollHup && !r.pollIn;
  }

  // -------- the poller --------

  class Poller {
    var channels: map<int, Channel>  // channels_
    var eventListSize: nat           // events_.size()
    ghost var kernel: map<int, Mask> // the epoll interest set
    ghost var own: set<Channel>      // the channels of this poller's loop

    // channels_ holds exactly the channels whose index is not kNew, keyed by descriptor; the kernel's
    // interest set is exactly those whose index is kAdded, with their masks; others ask for nothing.
    ghost predicate Valid()
      reads this, own
    {
      && eventListSize > 0
      && (forall fd :: fd in channels ==> channels[fd] in own && channels[fd].fd == fd && channels[fd].index != New)
      && (forall c :: c in own && c.index != New ==> c.fd in channels && channels[c.fd] == c)
      && (forall fd :: fd in kernel <==> fd in channels && channels[fd].index == Added)
      && (forall fd :: fd in kernel ==> kernel[fd] == channels[fd].events)
      && (forall c :: c in own && c.index != Added ==> c.events == NONE)
    }

    constructor ()
      ensures Valid() && own == {} && channels == map[] && kernel == map[]
    {
      channels, kernel, own, eventListSize := map[], map[], {}, 16;
    }

    // A channel that is made for this poller's loop
    ghost method Adopt(c: Channel)
      requires Valid() && c !in own && c.index == New && c.events == NONE
      modifies this`own
      ensures Valid() && own == old(own) + {c}
    {
      own := own + {c};
    }

    // All but c is in order; c's mask may be ahead of what the kernel knows.
    ghost predicate ValidBut(c: Channel)
      reads this, own
    {
      && eventListSize > 0
      && (forall fd :: fd in channels ==> channels[fd] in own && channels[fd].fd == fd && channels[fd].index != New)
      && (forall d :: d in own && d.index != New ==> d.fd in channels && channels[d.fd] == d)
      && (forall fd :: fd in kernel <==> fd in channels && channels[fd].index == Added)
      && (forall fd :: fd in kernel && fd != c.fd ==> kernel[fd] == channels[fd].events)
      && (forall d :: d in own && d.index != Added && d != c ==> d.events == NONE)
    }

    method UpdateChannel(c: Channel)
      requires c in own && ValidBut(c) && (c.index == New ==> c.fd !in channels)
      modifies this`channels, this`kernel, c`index
      ensures Valid()
      ensures c.index == NextIndex(old(c.index), c.events) && channels == old(channels)[c.fd := c]
      ensures kernel == NextKernel(old(kernel), c.fd, old(c.index), c.events)
    {
      if c.index == New || c.index == Deleted {
        Enrol(c);
      } else {
        Change(c);
      }
    }

    // The branch of a channel that the kernel does not have
    method Enrol(c: Channel)
      requires c in own && ValidBut(c) && c.index != Added && (c.index == New ==> c.fd !in channels)
      modifies this`channels, this`kernel, c`index
      ensures Valid() && c.index == Added && channels == old(channels)[c.fd := c]
      ensures kernel == old(kernel)[c.fd := c.events]
    {
      if c.index == New {
        assert c.fd !in channels;
        channels := channels[c.fd := c];
      } else {
        assert c.fd in channels && channels[c.fd] == c;
      }
      c.index := Added;
      EpollCtl(ADD, c);
    }

    // The branch of a channel that the kernel has
    method Change(c: Channel)
      requires c in own && ValidBut(c) && c.index == Added
      modifies this`kernel, c`index
      ensures Valid() && c.index == if c.events == NONE then Deleted else Added
      ensures kernel == if c.events == NONE then old(kernel) - {c.fd} else old(kernel)[c.fd := c.events]
    {
      assert c.fd in channels && channels[c.fd] == c;
      if c.events == NONE {
        EpollCtl(DEL, c);
        c.index := Deleted;
      } else {
        EpollCtl(MOD, c);
      }
    }

    // Poller::update; the kernel never refuses, so the fatal log is never reached
    method EpollCtl(op: Op, c: Channel)
      requires CtlSucceeds(kernel, op, c.fd)
      modifies this`kernel
      ensures kernel == Ctl(old(kernel), op, c.fd, c.events)
    {
      kernel := Ctl(kernel, op, c.fd, c.events);
    }

    method RemoveChannel(c: Channel)
      requires c in own && Valid() && c.events == NONE && c.index != New
      modifies this`channels, this`kernel, c`index
      ensures Valid() && c.index == New
      ensures channels == old(channels) - {c.fd} && kernel == old(kernel) - {c.fd}
    {
      assert c.fd in channels && channels[c.fd] == c;
      channels := channels - {c.fd};
      if c.index == Added {
        EpollCtl(DEL, c);
      }
      c.index := New;
    }

    // epoll_wait has reported distinct descriptors of its interest set, at most eventListSize of
    // them; each is found in channels_, and a full list is doubled for the next time.
    method Poll(reported: seq<(int, Revents)>) returns (active: seq<Channel>)
      requires Valid() && |reported| <= eventListSize
      requires forall i :: 0 <= i < |reported| ==>
        reported[i].0 in kernel && Reportable(kernel[reported[i].0], reported[i].1)
      requires forall i, j :: 0 <= i < j < |reported| ==> reported[i].0 != reported[j].0
      modifies this`eventListSize, own`revents
      ensures Valid() && |active| == |reported|
      ensures forall i :: 0 <= i < |active| ==>
        && active[i] in own && active[i].fd == reported[i].0 && active[i].index == Added
        && active[i].revents == reported[i].1 && Reportable(active[i].events, active[i].revents)
      ensures eventListSize == if |reported| == old(eventListSize) then 2 * old(eventListSize) else old(eventListSize)
    {
      active := [];
      for i := 0 to |reported|
        invariant Valid() && eventListSize == old(eventListSize) && |active| == i
        invariant forall j :: 0 <= j < i ==>
          && active[j] in own && active[j].fd == reported[j].0 && active[j].index == Added
          && active[j].revents == reported[j].1 && Reportable(active[j].events, active[j].revents)
        modifies own`revents
      {
        var fd := reported[i].0;
        assert fd in channels;
        channels[fd].revents := reported[i].1;
        active := active + [channels[fd]];
      }
      if |reported| > 0 && |reported| == eventListSize {
        eventListSize := 2 * eventListSize;
      }
    }

    function HasChannel(c: Channel): (has: bool)
      requires Valid() && c in own
      reads this, own
      ensures has <==> c.index != New
    {
      c.fd in channels && channels[c.fd] == c
    }
  }
}
