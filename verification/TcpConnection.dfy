/**
 The sending side of one TCP connection: what send accepts, what the kernel takes, what waits in
 the output buffer, when the writing half of the socket is shut.  All calls are made on the
 connection's own loop thread.
 */
module TcpConnections {
  import opened Buffers
  import opened Bytes
  import opened ConnectionStates
  import opened Pollers

  datatype Errno = EWOULDBLOCK | EPIPE | ECONNRESET | OTHER

  // What write(2) does with the bytes it is given
  datatype WriteResult = Took(n: nat) | Failed(errno: Errno)

  predicate Possible(r: WriteResult, len: nat) { r.Took? ==> r.n <= len }

  // What has been done to the socket so far
  datatype KernelOp = Wrote(bytes: seq<Byte>) | ShutWr

  // The sending side, and what has gone in and out of it
  datatype Out = Out(
    state: StateE,
    writing: bool,           // channel_->isWriting()
    buffer: seq<Byte>,       // outputBuffer_
    log: seq<KernelOp>,      // what the kernel was made to do
    accepted: seq<Byte>,     // all bytes given to send while connected
    kept: seq<Byte>,         // those of messages that no fault has dropped
    lost: nat)               // the number of bytes dropped by faults

  // -------- the code, as functions --------

  function Leftover(o: Out, rest: seq<Byte>): Out {
    if rest == [] then o else o.(buffer := o.buffer + rest, writing := true)
  }

  // Only a direct write can fault; the whole message is then dropped.
  predicate Faults(o: Out, r: WriteResult) {
    !o.writing && o.buffer == [] && (r == Failed(EPIPE) || r == Failed(ECONNRESET))
  }

  function SendInLoop(o: Out, data: seq<Byte>, r: WriteResult): Out
    requires Possible(r, |data|)
  {
    if o.state == Disconnected then o
    else if Faults(o, r) then o.(lost := o.lost + |data|)
    else
      var o' := o.(kept := o.kept + data);
      if !o.writing && o.buffer == [] && r.Took? then Leftover(o'.(log := o.log + [Wrote(data[..r.n])]), data[r.n..])
      else Leftover(o', data)
  }

  function Send(o: Out, data: seq<Byte>, r: WriteResult): Out
    requires Possible(r, |data|)
  {
    if o.state == Connected then SendInLoop(o.(accepted := o.accepted + data), data, r) else o
  }

  function ShutdownInLoop(o: Out): Out {
    if o.writing then o else o.(log := o.log + [ShutWr])
  }

  function Shutdown(o: Out): Out {
    if o.state == Connected then ShutdownInLoop(o.(state := Disconnecting)) else o
  }

  // forceClose and forceCloseWithDelay do the same to the state.
  function ForceClose(o: Out): Out {
    if o.state == Connected || o.state == Disconnecting then o.(state := Disconnecting) else o
  }

  function HandleWrite(o: Out, r: WriteResult): Out
    requires Possible(r, |o.buffer|)
  {
    if !o.writing || !r.Took? || r.n == 0 then o
    else
      var o' := o.(buffer := o.buffer[r.n..], log := o.log + [Wrote(o.buffer[..r.n])]);
      if o'.buffer != [] then o'
      else if o.state == Disconnecting then ShutdownInLoop(o'.(writing := false))
      else o'.(writing := false)
  }

  function HandleClose(o: Out): Out {
    if o.state == Connected || o.state == Disconnecting then o.(state := Disconnected, writing := false) else o
  }

  // -------- runs --------

  datatype Action =
    | DoEstablish
    | DoSend(data: seq<Byte>, r: WriteResult)
    | DoWritable(r: WriteResult)       // the channel reports POLLOUT
    | DoShutdown
    | DoForceClose                     // or forceCloseWithDelay
    | DoClose                          // end of file, hang-up, or forceCloseInLoop

  const NEW := Out(Connecting, false, [], [], [], [], 0)

  predicate PossibleNow(o: Out, a: Action) {
    match a
    case DoSend(data, r) => Possible(r, |data|)
    case DoWritable(r) => Possible(r, |o.buffer|)
    case _ => true
  }

  function Step(o: Out, a: Action): Out
    requires PossibleNow(o, a)
  {
    match a
    case DoEstablish => if o.state == Connecting then o.(state := Connected) else o
    case DoSend(data, r) => Send(o, data, r)
    case DoWritable(r) => HandleWrite(o, r)
    case DoShutdown => Shutdown(o)
    case DoForceClose => ForceClose(o)
    case DoClose => HandleClose(o)
  }

  // A run is any list of actions; the kernel's answers that are not possible are skipped.
  function Run(o: Out, actions: seq<Action>): Out
    decreases actions
  {
    if actions == [] then o
    else Run(if PossibleNow(o, actions[0]) then Step(o, actions[0]) else o, actions[1..])
  }

  // The bytes the kernel has taken, in order
  function Taken(log: seq<KernelOp>): seq<Byte> {
    if log == [] then []
    else Taken(log[..|log| - 1]) + if log[|log| - 1].Wrote? then log[|log| - 1].bytes else []
  }

  predicate ShutAt(log: seq<KernelOp>, i: nat) { i < |log| && log[i].ShutWr? }

  ghost predicate OutInv(o: Out) {
    && o.kept == Taken(o.log) + o.buffer
    && |o.accepted| == |o.kept| + o.lost
    && (o.lost == 0 ==> o.accepted == o.kept)
    && (if o.state == Disconnected then !o.writing else o.writing == (o.buffer != []))
    && (o.state == Connecting ==> o.log == [] && o.buffer == [])
    && (forall i :: ShutAt(o.log, i) ==> i == |o.log| - 1 && o.state != Connected && o.buffer == [])
  }

  lemma TakenPush(log: seq<KernelOp>, op: KernelOp)
    ensures Taken(log + [op]) == Taken(log) + if op.Wrote? then op.bytes else []
  {
    assert (log + [op])[..|log|] == log;
  }

  lemma ShutPush(log: seq<KernelOp>, op: KernelOp, i: nat)
    ensures ShutAt(log + [op], i) <==> ShutAt(log, i) || (i == |log| && op.ShutWr?)
  {
  }

  lemma LeftoverKeeps(o: Out, o': Out, rest: seq<Byte>)
    requires OutInv(o) && o.state == Connected
    requires o'.state == Connected && o'.writing == o.writing && o'.buffer == o.buffer && o'.lost == o.lost
    requires o'.kept == Taken(o'.log) + o.buffer + rest
    requires |o'.accepted| == |o'.kept| + o'.lost && (o'.lost == 0 ==> o'.accepted == o'.kept)
    requires forall i :: !ShutAt(o'.log, i)
    ensures OutInv(Leftover(o', rest))
  {
    assert rest == [] ==> o'.kept == Taken(o'.log) + o'.buffer;
    assert o'.kept == Taken(o'.log) + (o.buffer + rest);
  }

  lemma SendKeeps(o: Out, data: seq<Byte>, r: WriteResult)
    requires OutInv(o) && Possible(r, |data|) && o.state == Connected
    ensures OutInv(Send(o, data, r))
  {
    if !Faults(o, r) {
      var o' := o.(accepted := o.accepted + data, kept := o.kept + data);
      if !o.writing && o.buffer == [] && r.Took? {
        DirectKeeps(o, o'.(log := o.log + [Wrote(data[..r.n])]), data, r.n);
      } else {
        LeftoverKeeps(o, o', data);
      }
    }
  }

  lemma DirectKeeps(o: Out, o': Out, data: seq<Byte>, n: nat)
    requires OutInv(o) && o.state == Connected && !o.writing && n <= |data|
    requires o' == o.(accepted := o.accepted + data, kept := o.kept + data, log := o.log + [Wrote(data[..n])])
    ensures OutInv(Leftover(o', data[n..]))
  {
    var op := Wrote(data[..n]);
    assert forall i :: !ShutAt(o.log, i);
    forall i ensures !ShutAt(o.log + [op], i) { if i >= 0 { ShutPush(o.log, op, i); } }
    TakenPush(o.log, op);
    assert Taken(o.log) + data == (Taken(o.log) + data[..n]) + data[n..];
    LeftoverKeeps(o, o', data[n..]);
  }

  lemma ShutdownKeeps(o: Out)
    requires OutInv(o) && o.state == Disconnecting && forall i :: !ShutAt(o.log, i)
    ensures OutInv(ShutdownInLoop(o))
  {
    if !o.writing {
      TakenPush(o.log, ShutWr);
      forall i | ShutAt(o.log + [ShutWr], i) ensures i == |o.log| { ShutPush(o.log, ShutWr, i); }
    }
  }

  lemma WriteKeeps(o: Out, r: WriteResult)
    requires OutInv(o) && Possible(r, |o.buffer|)
    ensures OutInv(HandleWrite(o, r))
  {
    if o.writing && r.Took? && r.n > 0 {
      var o' := o.(buffer := o.buffer[r.n..], log := o.log + [Wrote(o.buffer[..r.n])]);
      TakeKeeps(o, r.n);
      if o'.buffer == [] && o.state == Disconnecting {
        ShutdownKeeps(o'.(writing := false));
      }
    }
  }

  lemma TakeKeeps(o: Out, n: nat)
    requires OutInv(o) && o.writing && n <= |o.buffer|
    ensures OutInv(o.(buffer := o.buffer[n..], log := o.log + [Wrote(o.buffer[..n])], writing := o.buffer[n..] != []))
    ensures forall i :: !ShutAt(o.log + [Wrote(o.buffer[..n])], i)
  {
    var op := Wrote(o.buffer[..n]);
    TakenPush(o.log, op);
    assert forall i :: !ShutAt(o.log, i);
    forall i ensures !ShutAt(o.log + [op], i) { if i >= 0 { ShutPush(o.log, op, i); } }
    assert Taken(o.log) + o.buffer == (Taken(o.log) + o.buffer[..n]) + o.buffer[n..];
  }

  lemma StepKeeps(o: Out, a: Action)
    requires OutInv(o) && PossibleNow(o, a)
    ensures OutInv(Step(o, a))
  {
    match a
    case DoSend(data, r) => if o.state == Connected { SendKeeps(o, data, r); }
    case DoWritable(r) => WriteKeeps(o, r);
    case DoShutdown => if o.state == Connected { ShutdownKeeps(o.(state := Disconnecting)); }
    case _ =>
  }

  lemma {:induction false} RunKeeps(o: Out, actions: seq<Action>)
    requires OutInv(o)
    ensures OutInv(Run(o, actions))
    decreases actions
  {
    if actions != [] {
      if PossibleNow(o, actions[0]) { StepKeeps(o, actions[0]); }
      RunKeeps(if PossibleNow(o, actions[0]) then Step(o, actions[0]) else o, actions[1..]);
    }
  }

  // A message is lost exactly when it is not empty and its direct write reports a broken connection.
  lemma LostExactly(o: Out, data: seq<Byte>, r: WriteResult)
    requires OutInv(o) && Possible(r, |data|)
    ensures Send(o, data, r).lost > o.lost <==> Broken(o, DoSend(data, r))
  {
  }

  // The guard of the branch that drops a message
  predicate Broken(o: Out, a: Action) {
    && a.DoSend? && o.state == Connected && a.data != [] && o.buffer == []
    && (a.r == Failed(EPIPE) || a.r == Failed(ECONNRESET))
  }

  // Some send of a run meets it, where it happens.
  predicate Breaks(o: Out, actions: seq<Action>)
    decreases actions
  {
    actions != [] &&
    (Broken(o, actions[0]) || Breaks(if PossibleNow(o, actions[0]) then Step(o, actions[0]) else o, actions[1..]))
  }

  lemma {:induction false} LostIff(o: Out, actions: seq<Action>)
    requires OutInv(o)
    ensures Run(o, actions).lost >= o.lost && (Run(o, actions).lost == o.lost <==> !Breaks(o, actions))
    decreases actions
  {
    if actions != [] {
      var a := actions[0];
      if PossibleNow(o, a) {
        StepKeeps(o, a);
        if a.DoSend? { LostExactly(o, a.data, a.r); }
      }
      LostIff(if PossibleNow(o, a) then Step(o, a) else o, actions[1..]);
    }
  }

  // Main result, exactly: whatever the kernel does with the writes, every byte of every message that
  // no fault has dropped is taken once and in order or waits in the buffer; so the accepted bytes are
  // those taken and those waiting if and only if no send found the connection broken.
  lemma NothingLost(actions: seq<Action>)
    ensures
      var o := Run(NEW, actions);
      && o.kept == Taken(o.log) + o.buffer
      && (o.accepted == Taken(o.log) + o.buffer <==> !Breaks(NEW, actions))
      && (o.state != Disconnected ==> (o.writing <==> o.buffer != []))
  {
    RunKeeps(NEW, actions);
    LostIff(NEW, actions);
  }

  // Main result: the writing half is shut at most once, as the last thing done to the socket, and
  // with nothing waiting; so, unless a send found the connection broken, after every accepted byte.
  lemma ShutOnceAndLast(actions: seq<Action>, i: nat)
    requires ShutAt(Run(NEW, actions).log, i)
    ensures
      var o := Run(NEW, actions);
      && i == |o.log| - 1 && o.buffer == []
      && (Taken(o.log[..i]) == o.accepted <==> !Breaks(NEW, actions))
  {
    RunKeeps(NEW, actions);
    LostIff(NEW, actions);
  }

  // -------- what is taken, and when the end is sent --------

  // The state of a connection by the operations alone
  function StateAfter(st: StateE, a: Action): StateE {
    match a
    case DoEstablish => if st == Connecting then Connected else st
    case DoShutdown => if st == Connected then Disconnecting else st
    case DoForceClose => if st == Connected then Disconnecting else st
    case DoClose => if st == Connected || st == Disconnecting then Disconnected else st
    case _ => st
  }

  // What is accepted on the way: all that is given to send while the connection is up and no shutdown
  // has been asked for
  function Given(st: StateE, actions: seq<Action>): seq<Byte>
    decreases actions
  {
    if actions == [] then []
    else
      var a := actions[0];
      (if a.DoSend? && Possible(a.r, |a.data|) && st == Connected then a.data else [])
      + Given(StateAfter(st, a), actions[1..])
  }

  // Main result: state and accepted bytes are those that the operations say, whatever the kernel does.
  lemma {:induction false} AcceptedAreGiven(o: Out, actions: seq<Action>)
    ensures Run(o, actions).accepted == o.accepted + Given(o.state, actions)
    decreases actions
  {
    if actions == [] {
      assert o.accepted + [] == o.accepted;
    } else {
      var a := actions[0];
      var o1 := if PossibleNow(o, a) then Step(o, a) else o;
      StateIs(o, a);
      AcceptedAreGiven(o1, actions[1..]);
      Associative(o.accepted, if a.DoSend? && Possible(a.r, |a.data|) && o.state == Connected then a.data else [],
                  Given(o1.state, actions[1..]));
    }
  }

  lemma Associative(a: seq<Byte>, b: seq<Byte>, c: seq<Byte>)
    ensures (a + b) + c == a + (b + c)
  {
  }

  lemma StateIs(o: Out, a: Action)
    ensures (if PossibleNow(o, a) then Step(o, a) else o).state == StateAfter(o.state, a)
    ensures (if PossibleNow(o, a) then Step(o, a) else o).accepted ==
      o.accepted + if a.DoSend? && Possible(a.r, |a.data|) && o.state == Connected then a.data else []
  {
  }

  lemma {:induction false} StatesAre(st: StateE, o: Out, actions: seq<Action>)
    requires o.state == st
    ensures Run(o, actions).state == StatesAfter(st, actions)
    decreases actions
  {
    if actions != [] {
      StateIs(o, actions[0]);
      var o1 := if PossibleNow(o, actions[0]) then Step(o, actions[0]) else o;
      StatesAre(o1.state, o1, actions[1..]);
    }
  }

  function StatesAfter(st: StateE, actions: seq<Action>): StateE
    decreases actions
  {
    if actions == [] then st else StatesAfter(StateAfter(st, actions[0]), actions[1..])
  }

  // What an operation has the kernel take: the start of a message, when nothing waits, or of what waits,
  // when the socket is writable
  function TakenBy(o: Out, a: Action): seq<Byte>
    requires PossibleNow(o, a)
  {
    match a
    case DoSend(data, Took(n)) => if o.state == Connected && o.buffer == [] then data[..n] else []
    case DoWritable(Took(n)) => if o.writing then o.buffer[..n] else []
    case _ => []
  }

  // Main result: these bytes are taken, and no others; nothing is forgotten of what was taken before.
  lemma TakesThese(o: Out, a: Action)
    requires OutInv(o) && PossibleNow(o, a)
    ensures Taken(Step(o, a).log) == Taken(o.log) + TakenBy(o, a)
    ensures a.DoWritable? && o.writing && a.r.Took? ==> Step(o, a).buffer == o.buffer[a.r.n..]
    ensures o.log <= Step(o, a).log
  {
    assert Taken(o.log) + [] == Taken(o.log);
    match a
    case DoSend(data, Took(n)) => TakenPush(o.log, Wrote(data[..n]));
    case DoWritable(Took(n)) => WritableTakes(o, n);
    case _ => TakenPush(o.log, ShutWr);
  }

  lemma WritableTakes(o: Out, n: nat)
    requires OutInv(o) && n <= |o.buffer|
    ensures
      var o' := Step(o, DoWritable(Took(n)));
      && Taken(o'.log) == Taken(o.log) + (if o.writing then o.buffer[..n] else [])
      && (o.writing ==> o'.buffer == o.buffer[n..]) && o.log <= o'.log
  {
    var log := o.log + [Wrote(o.buffer[..n])];
    TakenPush(o.log, Wrote(o.buffer[..n]));
    TakenPush(log, ShutWr);
    assert Taken(log) + [] == Taken(log) && Taken(o.log) + [] == Taken(o.log);
  }

  // The end has been sent.
  ghost predicate Shut(log: seq<KernelOp>) { exists i :: ShutAt(log, i) }

  // A writable event that takes all that waits sends the end, if a shutdown is pending.
  lemma ShutComes(o: Out)
    requires OutInv(o) && o.state == Disconnecting && o.writing
    ensures ShutAt(Step(o, DoWritable(Took(|o.buffer|))).log, |o.log| + 1)
  {
  }

  lemma ShutMore(log: seq<KernelOp>, op: KernelOp)
    ensures Shut(log + [op]) <==> Shut(log) || op.ShutWr?
  {
    forall i ensures i >= 0 ==> (ShutAt(log + [op], i) <==> ShutAt(log, i) || (i == |log| && op.ShutWr?)) {
      if i >= 0 { ShutPush(log, op, i); }
    }
    if op.ShutWr? { assert ShutAt(log + [op], |log|); }
    if i :| ShutAt(log, i) { assert ShutAt(log + [op], i); }
  }

  // While a shutdown is pending, the end has been sent if and only if nothing waits.
  ghost predicate EndsRight(o: Out) { o.state == Disconnecting ==> (Shut(o.log) <==> o.buffer == []) }

  lemma StepEndsRight(o: Out, a: Action)
    requires OutInv(o) && EndsRight(o) && PossibleNow(o, a) && !a.DoForceClose?
    ensures EndsRight(Step(o, a))
  {
    match a
    case DoShutdown => ShutMore(o.log, ShutWr);
    case DoWritable(Took(n)) =>
      ShutMore(o.log, Wrote(o.buffer[..n]));
      ShutMore(o.log + [Wrote(o.buffer[..n])], ShutWr);
    case _ =>
  }

  lemma {:induction false} RunEndsRight(o: Out, actions: seq<Action>)
    requires OutInv(o) && EndsRight(o) && forall a :: a in actions ==> !a.DoForceClose?
    ensures EndsRight(Run(o, actions))
    decreases actions
  {
    if actions != [] {
      assert actions[0] in actions;
      if PossibleNow(o, actions[0]) {
        StepKeeps(o, actions[0]);
        StepEndsRight(o, actions[0]);
      }
      RunEndsRight(if PossibleNow(o, actions[0]) then Step(o, actions[0]) else o, actions[1..]);
    }
  }

  // Main result, exactly: in any run without a forced close, once a shutdown has been asked for and until
  // the connection closes, the end has been sent if and only if every accepted byte that no fault has
  // dropped has been taken.
  lemma ShutComesInTheEnd(actions: seq<Action>)
    requires forall a :: a in actions ==> !a.DoForceClose?
    requires StatesAfter(Connecting, actions) == Disconnecting
    ensures
      var o := Run(NEW, actions);
      o.state == Disconnecting && (Shut(o.log) <==> o.buffer == []) && (Shut(o.log) <==> o.kept == Taken(o.log))
  {
    StatesAre(Connecting, NEW, actions);
    RunEndsRight(NEW, actions);
    RunKeeps(NEW, actions);
  }

  // -------- the object --------

  class TcpConnection {
    var state: StateE
    const channel: Channel
    const poller: Poller
    const outputBuffer: Buffer
    ghost var log: seq<KernelOp>
    ghost var accepted: seq<Byte>
    ghost var kept: seq<Byte>
    ghost var lost: nat

    ghost predicate Valid()
      reads this, channel, poller, poller.own, outputBuffer
    {
      && outputBuffer.Valid() && poller.Valid() && channel in poller.own
      && (state == Connecting ==> channel.index == New && channel.fd !in poller.channels)
      && (state == Connected || state == Disconnecting ==> channel.index == Added && channel.events.reading)
      && (state == Disconnected ==> !channel.events.writing)
    }

    ghost function OutNow(): Out
      requires Valid()
      reads this, channel, poller, poller.own, outputBuffer, outputBuffer.data
    {
      Out(state, channel.events.writing, outputBuffer.Content(), log, accepted, kept, lost)
    }

    constructor (channel: Channel, poller: Poller)
      requires poller.Valid() && channel in poller.own && channel.index == New && channel.fd !in poller.channels
      ensures Valid() && OutNow() == NEW && this.channel == channel && this.poller == poller
      ensures fresh(outputBuffer) && fresh(outputBuffer.data)
    {
      this.channel, this.poller := channel, poller;
      state := Connecting;
      log, accepted, kept, lost := [], [], [], 0;
      outputBuffer := new Buffer(4 * 1024);
    }

    method ConnectEstablished()
      requires Valid() && state == Connecting
      modifies this, channel, poller
      ensures Valid() && OutNow() == Step(old(OutNow()), DoEstablish)
    {
      state := Connected;
      channel.EnableReading(poller);
    }

    // r is what the kernel answers when the data is written directly.
    method SendMessage(data: seq<Byte>, r: WriteResult)
      requires Valid() && Possible(r, |data|)
      modifies this, channel, poller, outputBuffer, outputBuffer.data
      ensures Valid() && OutNow() == Send(old(OutNow()), data, r)
      ensures outputBuffer.data == old(outputBuffer.data) || fresh(outputBuffer.data)
    {
      if state == Connected {
        accepted := accepted + data;
        SendNow(data, r);
      }
    }

    // sendInLoop
    method SendNow(data: seq<Byte>, r: WriteResult)
      requires Valid() && state != Connecting && Possible(r, |data|)
      modifies this`log, this`kept, this`lost, channel, poller, outputBuffer, outputBuffer.data
      ensures Valid() && OutNow() == SendInLoop(old(OutNow()), data, r)
      ensures outputBuffer.data == old(outputBuffer.data) || fresh(outputBuffer.data)
    {
      if state != Disconnected {
        var written, faultError := 0, false;
        if !channel.events.writing && outputBuffer.ReadableBytes() == 0 {
          written, faultError := WriteDirectly(data, r);
        }
        if faultError {
          lost := lost + |data|;
        } else {
          kept := kept + data;
          if |data| - written > 0 {
            KeepRest(data[written..]);
          }
        }
      }
    }

    method WriteDirectly(data: seq<Byte>, r: WriteResult) returns (written: nat, faultError: bool)
      requires Valid() && Possible(r, |data|)
      modifies this`log
      ensures log == if r.Took? then old(log) + [Wrote(data[..r.n])] else old(log)
      ensures written == (if r.Took? then r.n else 0) && (faultError <==> r == Failed(EPIPE) || r == Failed(ECONNRESET))
    {
      written, faultError := 0, false;
      match r {
        case Took(n) =>
          written := n;
          log := log + [Wrote(data[..n])];
        case Failed(errno) =>
          faultError := errno == EPIPE || errno == ECONNRESET;
      }
    }

    method KeepRest(rest: seq<Byte>)
      requires Valid() && (state == Connected || state == Disconnecting) && rest != []
      modifies channel, poller, outputBuffer, outputBuffer.data
      ensures Valid() && OutNow() == Leftover(old(OutNow()), rest)
      ensures outputBuffer.data == old(outputBuffer.data) || fresh(outputBuffer.data)
    {
      outputBuffer.Append(rest);
      if !channel.events.writing {
        channel.EnableWriting(poller);
      }
    }

    method ShutdownWrite()
      requires Valid()
      modifies this
      ensures Valid() && OutNow() == ShutdownInLoop(old(OutNow()))
    {
      if !channel.events.writing {
        log := log + [ShutWr];
      }
    }

    method ShutdownConnection()
      requires Valid()
      modifies this
      ensures Valid() && OutNow() == Shutdown(old(OutNow()))
    {
      if state == Connected {
        state := Disconnecting;
        ShutdownWrite();
      }
    }

    method OnWritable(r: WriteResult)
      requires Valid() && Possible(r, outputBuffer.ReadableBytes())
      modifies this, channel, poller, outputBuffer
      ensures Valid() && OutNow() == HandleWrite(old(OutNow()), r)
    {
      if channel.events.writing && r.Took? && r.n > 0 {
        log := log + [Wrote(outputBuffer.Content()[..r.n])];
        outputBuffer.Retrieve(r.n);
        if outputBuffer.ReadableBytes() == 0 {
          channel.DisableWriting(poller);
          if state == Disconnecting {
            ShutdownWrite();
          }
        }
      }
    }

    method OnClose()
      requires Valid() && (state == Connected || state == Disconnecting)
      modifies this, channel, poller
      ensures Valid() && OutNow() == HandleClose(old(OutNow()))
      ensures channel.index == Deleted && channel.fd !in poller.kernel
    {
      state := Disconnected;
      channel.DisableAll(poller);
    }
  }
}
