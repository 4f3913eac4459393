/**
 The life of every connection of a TcpServer, over one base loop and any number of I/O loops.

 The state machine below interleaves the loops freely.  One step is one handler run by one loop:
 the swap of the pending functors, one functor, one event of the active list, or a call made by a
 user callback on the connection's own loop.  Handlers of different loops share nothing but the
 pending vectors, each of which is pushed to under its mutex.  Every assert that the code makes
 along the way is a step that can fail here (AssertFailed), so that "no assert fails" is a theorem.
 */
module TcpServer {
  import opened ConnectionStates
  import opened Pollers

  datatype Callback = Up | Down

  datatype Conn = Conn(
    loop: nat,            // the I/O loop that owns the connection
    fd: int,
    state: StateE,
    reading: bool,        // the channel's interest mask
    writing: bool,
    index: Index,
    addedToLoop: bool,
    fired: seq<Callback>) // the calls of connectionCallback_ so far
  {
    predicate NoneEvent() { !reading && !writing }
  }

  // What is queued on loops; every functor binds a shared pointer to its connection.
  datatype Functor =
    | ConnectEstablished(c: nat)
    | WriteComplete(c: nat)
    | ForceCloseInLoop(c: nat)
    | RemoveConnectionInLoop(c: nat)
    | ConnectDestroyed(c: nat)

  datatype Event =
    | Accept(ioLoop: nat, fd: int)
    | Io(c: nat, revIn: bool, revOut: bool, revHup: bool, revErr: bool)

  datatype Phase =
    | Polling                                             // blocked in poll
    | Handling(active: seq<Event>)                        // active channels not handled yet
    | Calling(done: seq<Functor>, todo: seq<Functor>)     // the swapped batch

  datatype Loop = Loop(
    phase: Phase,
    pending: seq<Functor>,
    channels: map<int, nat>)  // Poller::channels_, from fd to connection
  {
    function Todo(): seq<Functor> { if phase.Calling? then phase.todo + pending else pending }

    function Held(): seq<Functor> { if phase.Calling? then phase.done + phase.todo + pending else pending }
  }

  datatype World = World(
    loops: seq<Loop>,         // loops[0] is the base loop
    conns: map<nat, Conn>,    // every connection ever made
    connections: set<nat>,    // TcpServer::connections_; the name of a connection is its number
    nextConnId: nat)

  datatype Outcome = Ok(w: World) | AssertFailed(what: string) {
    predicate IsFailure() { AssertFailed? }

    function PropagateFailure(): Outcome
      requires AssertFailed?
    {
      this
    }

    function Extract(): World
      requires Ok?
    {
      w
    }
  }

  // What the kernel and the user's callback decide while a connection's event is handled
  datatype ReadResult = Bytes(userForceCloses: bool) | Eof | ReadError
  datatype Env = Env(read: ReadResult, drained: bool, hasWriteComplete: bool)

  datatype Action =
    | Poll(l: nat, ready: seq<Event>)
    | HandleNext(l: nat, env: Env)
    | Swap(l: nat)
    | RunFunctor(l: nat)
    | EndBatch(l: nat)
    | Send(c: nat, leftover: bool, hasWriteComplete: bool)
    | Shutdown(c: nat)
    | ForceClose(c: nat)

  // -------- the code, handler by handler --------

  predicate WellFormed(w: World) {
    && |w.loops| > 0
    && forall c :: c in w.conns ==> w.conns[c].loop < |w.loops|
  }

  // No handler but newConnection makes a connection, and none moves one to another loop.
  predicate SameShape(w: World, w': World) {
    && |w'.loops| == |w.loops|
    && w'.conns.Keys == w.conns.Keys
    && forall c :: c in w.conns ==> w'.conns[c].loop == w.conns[c].loop
  }

  function Queue(w: World, l: nat, f: Functor): World
    requires l < |w.loops|
  {
    w.(loops := w.loops[l := w.loops[l].(pending := w.loops[l].pending + [f])])
  }

  function SetConn(w: World, c: nat, k: Conn): World {
    w.(conns := w.conns[c := k])
  }

  function SetPhase(w: World, l: nat, phase: Phase): World
    requires l < |w.loops|
  {
    w.(loops := w.loops[l := w.loops[l].(phase := phase)])
  }

  function SetChannels(w: World, l: nat, channels: map<int, nat>): World
    requires l < |w.loops|
  {
    w.(loops := w.loops[l := w.loops[l].(channels := channels)])
  }

  // Channel::update and Poller::updateChannel, for connection c whose mask is to be that of k
  function UpdateChannel(w: World, c: nat, k: Conn): (o: Outcome)
    requires WellFormed(w) && c in w.conns && k.loop == w.conns[c].loop
    ensures o.Ok? ==> SameShape(w, o.w)
  {
    var chans := w.loops[k.loop].channels;
    if k.index == New then
      if k.fd in chans then AssertFailed("channels_.find(fd) == channels_.end()")
      else Ok(SetChannels(SetConn(w, c, k.(addedToLoop := true, index := Added)), k.loop, chans[k.fd := c]))
    else if k.fd !in chans || chans[k.fd] != c then AssertFailed("channels_[fd] == channel")
    else if k.index == Added && k.NoneEvent() then Ok(SetConn(w, c, k.(addedToLoop := true, index := Deleted)))
    else Ok(SetConn(w, c, k.(addedToLoop := true, index := Added)))
  }

  // Channel::remove, EventLoop::removeChannel and Poller::removeChannel
  function RemoveChannel(w: World, c: nat): (o: Outcome)
    requires WellFormed(w) && c in w.conns
    ensures o.Ok? ==> SameShape(w, o.w)
  {
    var k := w.conns[c];
    var loop := w.loops[k.loop];
    if !k.NoneEvent() then AssertFailed("isNoneEvent()")
    else if loop.phase.Handling? then AssertFailed("currentActiveChannel_ == channel || not active")
    else if k.fd !in loop.channels || loop.channels[k.fd] != c then AssertFailed("channels_[fd] == channel")
    else if k.index == New then AssertFailed("index == kAdded || index == kDeleted")
    else Ok(SetChannels(SetConn(w, c, k.(addedToLoop := false, index := New)), k.loop, loop.channels - {k.fd}))
  }

  // TcpConnection::connectEstablished
  function RunConnectEstablished(w: World, c: nat): (o: Outcome)
    requires WellFormed(w) && c in w.conns
    ensures o.Ok? ==> SameShape(w, o.w)
  {
    var k := w.conns[c];
    if k.state != Connecting then AssertFailed("state_ == kConnecting") else
    var w1 :- UpdateChannel(w, c, k.(state := Connected, reading := true));
    Ok(SetConn(w1, c, w1.conns[c].(fired := k.fired + [Up])))
  }

  // TcpServer::newConnection
  function NewConnection(w: World, ioLoop: nat, fd: int): (o: Outcome)
    requires WellFormed(w) && ioLoop < |w.loops|
  {
    var c := w.nextConnId;
    var w1 := SetConn(w, c, Conn(ioLoop, fd, Connecting, false, false, New, false, []))
      .(nextConnId := c + 1, connections := w.connections + {c});
    if ioLoop == 0 then RunConnectEstablished(w1, c) else Ok(Queue(w1, ioLoop, ConnectEstablished(c)))
  }

  // TcpServer::removeConnectionInLoop
  function RunRemoveConnection(w: World, c: nat): (o: Outcome)
    requires WellFormed(w) && c in w.conns
    ensures o.Ok? ==> SameShape(w, o.w)
  {
    if c !in w.connections then AssertFailed("connections_.erase(name) == 1")
    else Ok(Queue(w.(connections := w.connections - {c}), w.conns[c].loop, ConnectDestroyed(c)))
  }

  // TcpConnection::handleClose, then TcpServer::removeConnection as its closeCallback_
  function HandleClose(w: World, c: nat): (o: Outcome)
    requires WellFormed(w) && c in w.conns
    ensures o.Ok? ==> SameShape(w, o.w)
  {
    var k := w.conns[c];
    if k.state != Connected && k.state != Disconnecting then
      AssertFailed("state_ == kConnected || state_ == kDisconnecting")
    else
      var w1 :- UpdateChannel(w, c, k.(state := Disconnected, reading := false, writing := false));
      var w2 := SetConn(w1, c, w1.conns[c].(fired := k.fired + [Down]));
      if k.loop == 0 then RunRemoveConnection(w2, c) else Ok(Queue(w2, 0, RemoveConnectionInLoop(c)))
  }

  // TcpConnection::connectDestroyed
  function RunConnectDestroyed(w: World, c: nat): (o: Outcome)
    requires WellFormed(w) && c in w.conns
    ensures o.Ok? ==> SameShape(w, o.w)
  {
    var k := w.conns[c];
    if k.state == Connected then
      var w1 :- UpdateChannel(w, c, k.(state := Disconnected, reading := false, writing := false));
      RemoveChannel(SetConn(w1, c, w1.conns[c].(fired := k.fired + [Down])), c)
    else
      RemoveChannel(w, c)
  }

  // TcpConnection::forceClose
  function DoForceClose(w: World, c: nat): (w': World)
    requires WellFormed(w) && c in w.conns
    ensures SameShape(w, w')
  {
    var k := w.conns[c];
    if k.state == Connected || k.state == Disconnecting then
      Queue(SetConn(w, c, k.(state := Disconnecting)), k.loop, ForceCloseInLoop(c))
    else w
  }

  // TcpConnection::shutdown; what shutdownInLoop does to the socket is no part of this machine
  function DoShutdown(w: World, c: nat): (w': World)
    requires WellFormed(w) && c in w.conns
    ensures SameShape(w, w')
  {
    var k := w.conns[c];
    if k.state == Connected then SetConn(w, c, k.(state := Disconnecting)) else w
  }

  // TcpConnection::send: either all bytes are taken, or some are left and writing is enabled
  function DoSend(w: World, c: nat, leftover: bool, hasWriteComplete: bool): (o: Outcome)
    requires WellFormed(w) && c in w.conns
    ensures o.Ok? ==> SameShape(w, o.w)
  {
    var k := w.conns[c];
    if k.state != Connected then Ok(w)
    else if leftover then (if k.writing then Ok(w) else UpdateChannel(w, c, k.(writing := true)))
    else if hasWriteComplete then Ok(Queue(w, k.loop, WriteComplete(c)))
    else Ok(w)
  }

  // TcpConnection::handleRead
  function HandleRead(w: World, c: nat, r: ReadResult): (o: Outcome)
    requires WellFormed(w) && c in w.conns
    ensures o.Ok? ==> SameShape(w, o.w)
  {
    match r
    case Bytes(userForceCloses) => Ok(if userForceCloses then DoForceClose(w, c) else w)
    case Eof => HandleClose(w, c)
    case ReadError => Ok(w)
  }

  // TcpConnection::handleWrite
  function HandleWrite(w: World, c: nat, env: Env): (o: Outcome)
    requires WellFormed(w) && c in w.conns
    ensures o.Ok? ==> SameShape(w, o.w)
  {
    var k := w.conns[c];
    if k.writing && env.drained then
      var w1 :- UpdateChannel(w, c, k.(writing := false));
      Ok(if env.hasWriteComplete then Queue(w1, k.loop, WriteComplete(c)) else w1)
    else Ok(w)
  }

  // Channel::handleEvent
  function HandleIo(w: World, e: Event, env: Env): (o: Outcome)
    requires WellFormed(w) && e.Io? && e.c in w.conns
    ensures o.Ok? ==> SameShape(w, o.w)
  {
    var w1 :- if e.revHup && !e.revIn then HandleClose(w, e.c) else Ok(w);
    var w2 :- if e.revIn then HandleRead(w1, e.c, env.read) else Ok(w1);
    if e.revOut then HandleWrite(w2, e.c, env) else Ok(w2)
  }

  // One functor of a swapped batch
  function Execute(w: World, f: Functor): (o: Outcome)
    requires WellFormed(w) && f.c in w.conns
    ensures o.Ok? ==> SameShape(w, o.w)
  {
    match f
    case ConnectEstablished(c) => RunConnectEstablished(w, c)
    case WriteComplete(c) => Ok(w)
    case ForceCloseInLoop(c) =>
      if w.conns[c].state == Connected || w.conns[c].state == Disconnecting then HandleClose(w, c) else Ok(w)
    case RemoveConnectionInLoop(c) => RunRemoveConnection(w, c)
    case ConnectDestroyed(c) => RunConnectDestroyed(w, c)
  }

  // A connection is alive while the server's map or a functor still held by a loop points to it.
  ghost predicate Alive(w: World, c: nat) {
    c in w.connections || exists l :: 0 <= l < |w.loops| && Holds(w.loops[l].Held(), c)
  }

  ghost predicate Holds(held: seq<Functor>, c: nat) {
    exists f :: f in held && f.c == c
  }

  // -------- the machine --------

  // epoll reports a registered descriptor once, with events of its mask, or hang-up or error
  ghost predicate Reportable(w: World, l: nat, e: Event)
    requires l < |w.loops|
  {
    match e
    case Accept(ioLoop, fd) => l == 0 && ioLoop < |w.loops|
    case Io(c, revIn, revOut, revHup, revErr) =>
      && c in w.conns && w.conns[c].loop == l && w.conns[c].index == Added
      && (revIn ==> w.conns[c].reading)
      && (revOut ==> w.conns[c].writing)
  }

  ghost predicate Distinct(active: seq<Event>) {
    forall i, j :: 0 <= i < j < |active| && active[i].Io? && active[j].Io? ==> active[i].c != active[j].c
  }

  // User code runs on a loop's thread only inside the handlers of that loop.
  predicate Running(w: World, c: nat) {
    c in w.conns && w.conns[c].loop < |w.loops| && !w.loops[w.conns[c].loop].phase.Polling?
  }

  ghost predicate Enabled(w: World, a: Action) {
    match a
    case Poll(l, ready) =>
      l < |w.loops| && w.loops[l].phase.Polling? && Distinct(ready) && forall e :: e in ready ==> Reportable(w, l, e)
    case HandleNext(l, env) =>
      && l < |w.loops| && w.loops[l].phase.Handling? && w.loops[l].phase.active != []
      && (var e := w.loops[l].phase.active[0];
          // the kernel gives out a descriptor only when no live socket has it
          e.Accept? ==> forall c :: c in w.conns && Alive(w, c) ==> w.conns[c].fd != e.fd)
    case Swap(l) => l < |w.loops| && w.loops[l].phase == Handling([])
    case RunFunctor(l) => l < |w.loops| && w.loops[l].phase.Calling? && w.loops[l].phase.todo != []
    case EndBatch(l) => l < |w.loops| && w.loops[l].phase.Calling? && w.loops[l].phase.todo == []
    case Send(c, leftover, hasWriteComplete) => Running(w, c)
    case Shutdown(c) => Running(w, c)
    case ForceClose(c) => Running(w, c)
  }

  ghost function Step(w: World, a: Action): (o: Outcome)
    requires WellFormed(w) && Enabled(w, a)
  {
    match a
    case Poll(l, ready) =>
      // fillActiveChannels finds each reported channel in channels_
      if forall e :: e in ready && e.Io? ==>
        w.conns[e.c].fd in w.loops[l].channels && w.loops[l].channels[w.conns[e.c].fd] == e.c
      then Ok(SetPhase(w, l, Handling(ready))) else AssertFailed("it->second == channel")
    case HandleNext(l, env) =>
      var e := w.loops[l].phase.active[0];
      var w1 := SetPhase(w, l, Handling(w.loops[l].phase.active[1..]));
      if e.Accept? then
        if e.ioLoop < |w.loops| then NewConnection(w1, e.ioLoop, e.fd) else AssertFailed("no such loop")
      else if e.c !in w.conns then AssertFailed("event of an unknown channel")
      else if !Alive(w, e.c) then AssertFailed("event of a destroyed channel")
      else HandleIo(w1, e, env)
    case Swap(l) =>
      Ok(w.(loops := w.loops[l := w.loops[l].(phase := Calling([], w.loops[l].pending), pending := [])]))
    case RunFunctor(l) =>
      var phase := w.loops[l].phase;
      var f := phase.todo[0];
      if f.c !in w.conns then AssertFailed("functor of an unknown connection")
      else Execute(SetPhase(w, l, Calling(phase.done + [f], phase.todo[1..])), f)
    case EndBatch(l) => Ok(SetPhase(w, l, Polling))
    case Send(c, leftover, hasWriteComplete) => DoSend(w, c, leftover, hasWriteComplete)
    case Shutdown(c) => Ok(DoShutdown(w, c))
    case ForceClose(c) => Ok(DoForceClose(w, c))
  }

  // -------- the invariant --------

  // The loop that runs a functor
  function Home(w: World, f: Functor): nat
    requires f.c in w.conns
  {
    if f.RemoveConnectionInLoop? then 0 else w.conns[f.c].loop
  }

  // How often functor f is still to be run, counting the one being run now
  ghost function Left(w: World, f: Functor, now: set<Functor>): nat
    requires WellFormed(w) && f.c in w.conns
  {
    multiset(w.loops[Home(w, f)].Todo())[f] + if f in now then 1 else 0
  }

  predicate IsUp(k: Conn) { k.state == Connected || k.state == Disconnecting }

  // What is owed to connection c, and what its channel and its callbacks look like, in each state
  ghost predicate ConnInv(w: World, c: nat, now: set<Functor>)
    requires WellFormed(w) && c in w.conns
  {
    var k := w.conns[c];
    var destroys := Left(w, ConnectDestroyed(c), now);
    && Left(w, ConnectEstablished(c), now) == (if k.state == Connecting then 1 else 0)
    && Left(w, RemoveConnectionInLoop(c), now) == (if k.state == Disconnected && c in w.connections then 1 else 0)
    && destroys <= 1
    && (destroys == 1 ==> k.state == Disconnected && c !in w.connections)
    && (k.state != Disconnected ==> c in w.connections)
    && k.fired == (if k.state == Connecting then [] else if IsUp(k) then [Up] else [Up, Down])
    && k.index == (if k.state == Connecting then New
                   else if IsUp(k) then Added
                   else if c in w.connections || destroys == 1 then Deleted else New)
    && (k.addedToLoop <==> k.index != New)
    && (if IsUp(k) then k.reading else k.NoneEvent())
  }

  // channels_ of loop l holds exactly its channels whose index is not kNew, keyed by descriptor.
  ghost predicate ChannelsInv(w: World, l: nat)
    requires l < |w.loops|
  {
    var chans := w.loops[l].channels;
    && (forall fd :: fd in chans ==>
          && chans[fd] in w.conns && w.conns[chans[fd]].loop == l
          && w.conns[chans[fd]].fd == fd && w.conns[chans[fd]].index != New)
    && (forall c :: c in w.conns && w.conns[c].loop == l && w.conns[c].index != New ==>
          w.conns[c].fd in chans && chans[w.conns[c].fd] == c)
  }

  // The events not handled yet are of connections that are up.
  ghost predicate ActiveInv(w: World, l: nat)
    requires l < |w.loops|
  {
    w.loops[l].phase.Handling? ==>
      && Distinct(w.loops[l].phase.active)
      && forall e :: e in w.loops[l].phase.active ==>
          match e
          case Accept(ioLoop, fd) => l == 0 && ioLoop < |w.loops|
          case Io(c, _, _, _, _) => c in w.conns && w.conns[c].loop == l && IsUp(w.conns[c])
  }

  ghost predicate HeldInv(w: World, l: nat)
    requires l < |w.loops|
  {
    forall f :: f in w.loops[l].Held() ==> f.c in w.conns && Home(w, f) == l
  }

  ghost predicate LoopInv(w: World, l: nat)
    requires l < |w.loops|
  {
    ChannelsInv(w, l) && ActiveInv(w, l) && HeldInv(w, l)
  }

  // No two live connections have the same descriptor.
  ghost predicate FdInv(w: World) {
    forall c, d {:trigger Alive(w, c), Alive(w, d)} ::
      c in w.conns && d in w.conns && c != d && Alive(w, c) && Alive(w, d) ==>
      w.conns[c].fd != w.conns[d].fd
  }

  ghost predicate ConnsInv(w: World, now: set<Functor>)
    requires WellFormed(w)
  {
    forall c {:trigger ConnInv(w, c, now)} :: c in w.conns ==> c < w.nextConnId && ConnInv(w, c, now)
  }

  ghost predicate LoopsInv(w: World) {
    forall l {:trigger LoopInv(w, l)} :: 0 <= l < |w.loops| ==> LoopInv(w, l)
  }

  ghost predicate Inv(w: World, now: set<Functor>) {
    WellFormed(w) && w.connections <= w.conns.Keys && ConnsInv(w, now) && LoopsInv(w) && FdInv(w)
  }

  // -------- each handler keeps it --------

  // From w to w', only connection c, its channel and functors of its own have changed.
  ghost predicate OnlyTouches(w: World, w': World, c: nat, now: set<Functor>, now': set<Functor>)
    requires WellFormed(w) && c in w.conns
  {
    var fd := w.conns[c].fd;
    && SameShape(w, w') && w'.nextConnId == w.nextConnId
    && (forall d :: d in w.conns && d != c ==>
      w'.conns[d] == w.conns[d] && (d in w'.connections <==> d in w.connections))
    && w'.connections <= w.connections
    && w'.conns[c].fd == fd
    && (forall f: Functor :: f.c != c ==> (f in now' <==> f in now))
    && (forall l :: 0 <= l < |w.loops| ==> LoopOnlyTouches(w, w', c, l))
  }

  ghost predicate LoopOnlyTouches(w: World, w': World, c: nat, l: nat)
    requires c in w.conns && c in w'.conns && l < |w.loops| == |w'.loops|
  {
    var fd := w.conns[c].fd;
    var p, p' := w.loops[l], w'.loops[l];
    && p'.phase == p.phase
    && (forall f: Functor :: f.c != c ==> multiset(p'.Todo())[f] == multiset(p.Todo())[f])
    && (forall f :: f in p'.Held() ==> f in p.Held() || (f.c == c && Home(w, f) == l))
    && (l != w.conns[c].loop ==> p'.channels == p.channels)
    && (forall x :: x != fd ==>
      (x in p'.channels <==> x in p.channels) && (x in p.channels ==> p'.channels[x] == p.channels[x]))
    && (l == w.conns[c].loop ==>
          && (fd in p.channels ==> p.channels[fd] == c)
          && (fd in p'.channels ==> p'.channels[fd] == c)
          && (fd in p'.channels <==> w'.conns[c].index != New))
  }

  lemma FrameLeft(w: World, w': World, c: nat, now: set<Functor>, now': set<Functor>, f: Functor)
    requires WellFormed(w) && c in w.conns && OnlyTouches(w, w', c, now, now') && f.c in w.conns && f.c != c
    ensures WellFormed(w') && Left(w', f, now') == Left(w, f, now)
  {
    assert LoopOnlyTouches(w, w', c, Home(w, f));
  }

  lemma FrameConn(w: World, w': World, c: nat, now: set<Functor>, now': set<Functor>, d: nat)
    requires WellFormed(w) && c in w.conns && OnlyTouches(w, w', c, now, now') && d in w.conns && d != c
    requires ConnInv(w, d, now)
    ensures WellFormed(w') && ConnInv(w', d, now')
  {
    FrameLeft(w, w', c, now, now', ConnectEstablished(d));
    FrameLeft(w, w', c, now, now', RemoveConnectionInLoop(d));
    FrameLeft(w, w', c, now, now', ConnectDestroyed(d));
  }

  lemma FrameLoop(w: World, w': World, c: nat, now: set<Functor>, now': set<Functor>, l: nat)
    requires WellFormed(w) && c in w.conns && OnlyTouches(w, w', c, now, now') && l < |w.loops|
    requires LoopInv(w, l)
    requires !IsUp(w.conns[c]) || IsUp(w'.conns[c]) || NoEventOf(w, c)
    ensures LoopInv(w', l)
  {
    assert LoopOnlyTouches(w, w', c, l);
  }

  lemma FrameAlive(w: World, w': World, c: nat, now: set<Functor>, now': set<Functor>, d: nat)
    requires WellFormed(w) && c in w.conns && OnlyTouches(w, w', c, now, now') && Alive(w', d) && d != c && d in w.conns
    ensures Alive(w, d)
  {
    if d !in w.connections {
      var l :| 0 <= l < |w'.loops| && Holds(w'.loops[l].Held(), d);
      assert LoopOnlyTouches(w, w', c, l);
      assert Holds(w.loops[l].Held(), d);
    }
  }

  lemma FrameFd(w: World, w': World, c: nat, now: set<Functor>, now': set<Functor>)
    requires WellFormed(w) && c in w.conns && OnlyTouches(w, w', c, now, now') && FdInv(w) && Alive(w, c)
    ensures FdInv(w')
  {
    forall d, e | d in w'.conns && e in w'.conns && d != e && Alive(w', d) && Alive(w', e)
      ensures w'.conns[d].fd != w'.conns[e].fd
    {
      if d != c { FrameAlive(w, w', c, now, now', d); }
      if e != c { FrameAlive(w, w', c, now, now', e); }
    }
  }

  lemma FrameConns(w: World, w': World, c: nat, now: set<Functor>, now': set<Functor>)
    requires WellFormed(w) && c in w.conns && OnlyTouches(w, w', c, now, now') && ConnsInv(w, now)
    requires WellFormed(w') && ConnInv(w', c, now')
    ensures ConnsInv(w', now')
  {
    forall d | d in w'.conns ensures d < w'.nextConnId && ConnInv(w', d, now') {
      assert ConnInv(w, d, now);
      if d != c { FrameConn(w, w', c, now, now', d); }
    }
  }

  lemma FrameLoops(w: World, w': World, c: nat, now: set<Functor>, now': set<Functor>)
    requires WellFormed(w) && c in w.conns && OnlyTouches(w, w', c, now, now') && LoopsInv(w)
    requires !IsUp(w.conns[c]) || IsUp(w'.conns[c]) || NoEventOf(w, c)
    ensures LoopsInv(w')
  {
    forall l | 0 <= l < |w'.loops| ensures LoopInv(w', l) {
      assert LoopInv(w, l);
      FrameLoop(w, w', c, now, now', l);
    }
  }

  // What has to be seen about c itself when a handler has run for it
  lemma Frame(w: World, w': World, c: nat, now: set<Functor>, now': set<Functor>)
    requires Inv(w, now) && c in w.conns && OnlyTouches(w, w', c, now, now') && Alive(w, c)
    requires WellFormed(w') && ConnInv(w', c, now')
    requires !IsUp(w.conns[c]) || IsUp(w'.conns[c]) || NoEventOf(w, c)
    ensures Inv(w', now')
  {
    FrameConns(w, w', c, now, now');
    FrameLoops(w, w', c, now, now');
    FrameFd(w, w', c, now, now');
  }

  // No event of c waits to be handled.
  ghost predicate NoEventOf(w: World, c: nat)
    requires c in w.conns
  {
    var l := w.conns[c].loop;
    l < |w.loops| && w.loops[l].phase.Handling? ==>
      forall e :: e in w.loops[l].phase.active && e.Io? ==> e.c != c
  }

  // A connection whose channel is registered is still pointed to.
  lemma AliveIfRegistered(w: World, c: nat, now: set<Functor>)
    requires c in w.conns && Inv(w, now) && w.conns[c].index != New && ConnectDestroyed(c) !in now
    ensures Alive(w, c)
  {
    if c !in w.connections {
      assert ConnInv(w, c, now);
      var f := ConnectDestroyed(c);
      var l := Home(w, f);
      assert f in multiset(w.loops[l].Todo());
      assert f in w.loops[l].Held();
      assert Holds(w.loops[l].Held(), c);
    }
  }

  // Poller::updateChannel meets its asserts when the channel is registered, or is new with a free descriptor.
  ghost predicate Updatable(w: World, c: nat)
    requires WellFormed(w) && c in w.conns
  {
    var k := w.conns[c];
    var chans := w.loops[k.loop].channels;
    if k.index == New then k.fd !in chans else k.fd in chans && chans[k.fd] == c
  }

  lemma RegisteredUpdatable(w: World, c: nat, now: set<Functor>)
    requires c in w.conns && Inv(w, now) && Alive(w, c)
    requires forall d :: ConnectDestroyed(d) !in now
    ensures Updatable(w, c)
  {
    var k := w.conns[c];
    assert LoopInv(w, k.loop);
    if k.index == New && k.fd in w.loops[k.loop].channels {
      AliveIfRegistered(w, w.loops[k.loop].channels[k.fd], now);
      assert false;
    }
  }

  lemma UpdateTouches(w: World, c: nat, k: Conn, now: set<Functor>, now': set<Functor>)
    requires WellFormed(w) && c in w.conns && Updatable(w, c)
    requires k.loop == w.conns[c].loop && k.fd == w.conns[c].fd && k.index == w.conns[c].index
    requires forall f: Functor :: f.c != c ==> (f in now' <==> f in now)
    ensures UpdateChannel(w, c, k).Ok?
    ensures OnlyTouches(w, UpdateChannel(w, c, k).w, c, now, now')
    ensures UpdateChannel(w, c, k).w.connections == w.connections
    ensures forall l :: 0 <= l < |w.loops| ==> UpdateChannel(w, c, k).w.loops[l].Todo() == w.loops[l].Todo()
  {
    var w' := UpdateChannel(w, c, k).w;
    forall l | 0 <= l < |w.loops| ensures LoopOnlyTouches(w, w', c, l) {
    }
  }

  lemma EstablishedTouches(w: World, c: nat, now: set<Functor>)
    requires WellFormed(w) && c in w.conns && Updatable(w, c) && now == {ConnectEstablished(c)}
    requires w.conns[c].state == Connecting && w.conns[c].index == New
    ensures RunConnectEstablished(w, c).Ok?
    ensures
      var w', k := RunConnectEstablished(w, c).w, w.conns[c];
      && OnlyTouches(w, w', c, now, {})
      && w'.connections == w.connections
      && w'.conns[c] ==
        k.(state := Connected, reading := true, addedToLoop := true, index := Added, fired := k.fired + [Up])
      && forall l :: 0 <= l < |w.loops| ==> w'.loops[l].Todo() == w.loops[l].Todo()
  {
    var k := w.conns[c].(state := Connected, reading := true);
    UpdateTouches(w, c, k, now, {});
    var w1 := UpdateChannel(w, c, k).w;
    SetTouches(w, w1, c, w1.conns[c].(fired := w.conns[c].fired + [Up]), now, {});
  }

  // The rest of a connection's fields is nobody else's business.
  lemma SetTouches(w: World, w1: World, c: nat, k: Conn, now: set<Functor>, now': set<Functor>)
    requires WellFormed(w) && c in w.conns && OnlyTouches(w, w1, c, now, now')
    requires k.loop == w1.conns[c].loop && k.fd == w1.conns[c].fd && k.index == w1.conns[c].index
    ensures OnlyTouches(w, SetConn(w1, c, k), c, now, now')
  {
    var w2 := SetConn(w1, c, k);
    forall l | 0 <= l < |w.loops| ensures LoopOnlyTouches(w, w2, c, l) {
      assert LoopOnlyTouches(w, w1, c, l);
    }
  }

  lemma ForgetTouches(w: World, w1: World, c: nat, now: set<Functor>, now': set<Functor>)
    requires WellFormed(w) && c in w.conns && OnlyTouches(w, w1, c, now, now')
    ensures OnlyTouches(w, w1.(connections := w1.connections - {c}), c, now, now')
  {
    var w2 := w1.(connections := w1.connections - {c});
    forall l | 0 <= l < |w.loops| ensures LoopOnlyTouches(w, w2, c, l) {
      assert LoopOnlyTouches(w, w1, c, l);
    }
  }

  // What is left of c's own functors tells whether it is in order.
  lemma ConnAfter(w: World, w': World, c: nat, f: Functor)
    requires WellFormed(w) && WellFormed(w') && c in w.conns && SameShape(w, w') && f.c == c
    requires forall l :: 0 <= l < |w.loops| ==> w'.loops[l].Todo() == w.loops[l].Todo()
    ensures forall g: Functor :: g.c == c && g != f ==> Left(w', g, {}) == Left(w, g, {f})
    ensures Left(w', f, {}) + 1 == Left(w, f, {f})
  {
  }

  lemma EstablishedSafe(w: World, c: nat)
    requires c in w.conns && Inv(w, {ConnectEstablished(c)}) && Alive(w, c)
    ensures RunConnectEstablished(w, c).Ok? && Inv(RunConnectEstablished(w, c).w, {})
  {
    var now := {ConnectEstablished(c)};
    RegisteredUpdatable(w, c, now);
    assert w.conns[c].state == Connecting && w.conns[c].index == New by { assert ConnInv(w, c, now); }
    EstablishedTouches(w, c, now);
    var w' := RunConnectEstablished(w, c).w;
    assert ConnInv(w, c, now);
    EstablishedConn(w, w', c);
    Frame(w, w', c, now, {});
  }

  lemma EstablishedConn(w: World, w': World, c: nat)
    requires WellFormed(w) && WellFormed(w') && c in w.conns
    requires SameShape(w, w') && ConnInv(w, c, {ConnectEstablished(c)})
    requires forall l :: 0 <= l < |w.loops| ==> w'.loops[l].Todo() == w.loops[l].Todo()
    requires w'.connections == w.connections && w.conns[c].state == Connecting
    requires
      var k := w.conns[c];
      w'.conns[c] ==
        k.(state := Connected, reading := true, addedToLoop := true, index := Added, fired := k.fired + [Up])
    ensures ConnInv(w', c, {})
  {
    ConnAfter(w, w', c, ConnectEstablished(c));
  }

  lemma PushLoop(p: Loop, f: Functor)
    ensures p.(pending := p.pending + [f]).Todo() == p.Todo() + [f]
    ensures p.(pending := p.pending + [f]).Held() == p.Held() + [f]
  {
  }

  lemma CountPush(s: seq<Functor>, f: Functor, g: Functor)
    ensures multiset(s + [f])[g] == multiset(s)[g] + if g == f then 1 else 0
  {
  }

  lemma QueueLeft(w: World, l: nat, f: Functor, g: Functor, now: set<Functor>)
    requires WellFormed(w) && f.c in w.conns && l == Home(w, f) && g.c in w.conns
    ensures Left(Queue(w, l, f), g, now) == Left(w, g, now) + if g == f then 1 else 0
  {
    PushLoop(w.loops[l], f);
    CountPush(w.loops[l].Todo(), f, g);
  }

  lemma QueueTouches(w: World, l: nat, f: Functor, now: set<Functor>)
    requires WellFormed(w) && f.c in w.conns && l == Home(w, f) && ChanOwn(w, f.c)
    ensures OnlyTouches(w, Queue(w, l, f), f.c, now, now)
  {
    forall m | 0 <= m < |w.loops| ensures LoopOnlyTouches(w, Queue(w, l, f), f.c, m) {
      QueueTouchesLoop(w, l, f, m);
    }
  }

  lemma QueueTouchesLoop(w: World, l: nat, f: Functor, m: nat)
    requires WellFormed(w) && f.c in w.conns && l == Home(w, f) && ChanOwn(w, f.c) && m < |w.loops|
    ensures LoopOnlyTouches(w, Queue(w, l, f), f.c, m)
  {
    var w' := Queue(w, l, f);
    PushLoop(w.loops[l], f);
    forall g: Functor | g.c != f.c ensures multiset(w'.loops[m].Todo())[g] == multiset(w.loops[m].Todo())[g] {
      CountPush(w.loops[l].Todo(), f, g);
    }
  }

  // The channels_ entry of c agrees with its index.
  ghost predicate ChanOwn(w: World, c: nat)
    requires WellFormed(w) && c in w.conns
  {
    var k := w.conns[c];
    var chans := w.loops[k.loop].channels;
    (k.fd in chans ==> chans[k.fd] == c) && (k.fd in chans <==> k.index != New)
  }

  lemma TouchesTrans(w: World, w1: World, w2: World, c: nat, now: set<Functor>, now1: set<Functor>, now2: set<Functor>)
    requires WellFormed(w) && c in w.conns && OnlyTouches(w, w1, c, now, now1)
    requires WellFormed(w1) && c in w1.conns && OnlyTouches(w1, w2, c, now1, now2)
    ensures OnlyTouches(w, w2, c, now, now2)
  {
    forall l | 0 <= l < |w.loops| ensures LoopOnlyTouches(w, w2, c, l) {
      assert LoopOnlyTouches(w, w1, c, l) && LoopOnlyTouches(w1, w2, c, l);
    }
  }

  lemma RemoveTouches(w: World, c: nat, now: set<Functor>)
    requires WellFormed(w) && c in w.conns && ChanOwn(w, c) && now == {RemoveConnectionInLoop(c)} && c in w.connections
    ensures RunRemoveConnection(w, c).Ok?
    ensures
      var w' := RunRemoveConnection(w, c).w;
      && OnlyTouches(w, w', c, now, {})
      && w' == Queue(w.(connections := w.connections - {c}), w.conns[c].loop, ConnectDestroyed(c))
  {
    var w1 := w.(connections := w.connections - {c});
    var w' := RunRemoveConnection(w, c).w;
    QueueTouches(w1, w.conns[c].loop, ConnectDestroyed(c), {});
    forall l | 0 <= l < |w.loops| ensures LoopOnlyTouches(w, w', c, l) {
      assert LoopOnlyTouches(w1, w', c, l);
    }
  }

  lemma RemoveSafe(w: World, c: nat)
    requires c in w.conns && Inv(w, {RemoveConnectionInLoop(c)}) && Alive(w, c)
    ensures RunRemoveConnection(w, c).Ok? && Inv(RunRemoveConnection(w, c).w, {})
  {
    var f := RemoveConnectionInLoop(c);
    assert c in w.connections && w.conns[c].index == Deleted by { assert ConnInv(w, c, {f}); }
    assert ChanOwn(w, c) by { RegisteredUpdatable(w, c, {f}); }
    RemoveTouches(w, c, {f});
    var w1 := w.(connections := w.connections - {c});
    var w' := RunRemoveConnection(w, c).w;
    assert ConnInv(w', c, {}) by {
      assert ConnInv(w, c, {f});
      ConnAfter(w, w1, c, f);
      QueueLeft(w1, w.conns[c].loop, ConnectDestroyed(c), ConnectDestroyed(c), {});
      QueueLeft(w1, w.conns[c].loop, ConnectDestroyed(c), ConnectEstablished(c), {});
      QueueLeft(w1, w.conns[c].loop, ConnectDestroyed(c), f, {});
    }
    Frame(w, w', c, {f}, {});
  }

  // The first half of handleClose: the channel leaves the interest set and the callback fires.
  lemma CloseDetaches(w: World, c: nat, now: set<Functor>, w1: World, w2: World)
    requires c in w.conns && WellFormed(w) && Updatable(w, c) && now <= {ForceCloseInLoop(c)}
    requires IsUp(w.conns[c]) && w.conns[c].index == Added
    requires UpdateChannel(w, c, w.conns[c].(state := Disconnected, reading := false, writing := false)) == Ok(w1)
    requires w2 == SetConn(w1, c, w1.conns[c].(fired := w.conns[c].fired + [Down]))
    ensures OnlyTouches(w, w2, c, now, {})
    ensures OnlyTouches(w, w2.(connections := w2.connections - {c}), c, now, {})
    ensures w2.loops == w.loops && w2.connections == w.connections
    ensures w2.conns[c] == w.conns[c].(state := Disconnected, reading := false, writing := false, index := Deleted,
                                       addedToLoop := true, fired := w.conns[c].fired + [Down])
  {
    var k := w.conns[c].(state := Disconnected, reading := false, writing := false);
    UpdateTouches(w, c, k, now, {});
    SetTouches(w, w1, c, w1.conns[c].(fired := w.conns[c].fired + [Down]), now, {});
    ForgetTouches(w, w2, c, now, {});
  }

  lemma CloseSafe(w: World, c: nat, now: set<Functor>)
    requires c in w.conns && Inv(w, now) && now <= {ForceCloseInLoop(c)}
    requires IsUp(w.conns[c]) && NoEventOf(w, c)
    ensures HandleClose(w, c).Ok? && Inv(HandleClose(w, c).w, {})
  {
    var k := w.conns[c];
    assert k.index == Added && Alive(w, c) by { assert ConnInv(w, c, now); }
    RegisteredUpdatable(w, c, now);
    var w1 := UpdateChannel(w, c, k.(state := Disconnected, reading := false, writing := false)).w;
    var w2 := SetConn(w1, c, w1.conns[c].(fired := k.fired + [Down]));
    CloseDetaches(w, c, now, w1, w2);
    assert c in w.connections by { assert ConnInv(w, c, now); }
    if k.loop == 0 {
      CloseQueues(w, w2.(connections := w2.connections - {c}), c, now, 0, ConnectDestroyed(c));
    } else {
      CloseQueues(w, w2, c, now, 0, RemoveConnectionInLoop(c));
    }
  }

  // The end of handleClose, when the next functor on the way down is queued
  ghost predicate ClosedBut(w: World, w2: World, c: nat, now: set<Functor>)
    requires WellFormed(w) && c in w.conns
  {
    && OnlyTouches(w, w2, c, now, {}) && WellFormed(w2) && now <= {ForceCloseInLoop(c)}
    && (forall m :: 0 <= m < |w.loops| ==> w2.loops[m].Todo() == w.loops[m].Todo())
    && w2.conns[c] == w.conns[c].(state := Disconnected, reading := false, writing := false, index := Deleted,
                                  addedToLoop := true, fired := w.conns[c].fired + [Down])
  }

  lemma CloseConn(w: World, w2: World, c: nat, now: set<Functor>, l: nat, f: Functor)
    requires WellFormed(w) && c in w.conns && ClosedBut(w, w2, c, now) && ConnInv(w, c, now) && IsUp(w.conns[c])
    requires f.c == c && l == Home(w, f)
    requires if c in w2.connections then f.RemoveConnectionInLoop? else f.ConnectDestroyed?
    ensures WellFormed(Queue(w2, l, f)) && ConnInv(Queue(w2, l, f), c, {})
  {
    CloseLeft(w, w2, c, now, l, f, ConnectEstablished(c));
    CloseLeft(w, w2, c, now, l, f, RemoveConnectionInLoop(c));
    CloseLeft(w, w2, c, now, l, f, ConnectDestroyed(c));
    ClosedConn(w, Queue(w2, l, f), c, now, f);
  }

  lemma ClosedConn(w: World, w': World, c: nat, now: set<Functor>, f: Functor)
    requires WellFormed(w) && WellFormed(w') && c in w.conns && c in w'.conns && ConnInv(w, c, now) && IsUp(w.conns[c])
    requires w'.conns[c] == w.conns[c].(state := Disconnected, reading := false, writing := false, index := Deleted,
                                        addedToLoop := true, fired := w.conns[c].fired + [Down])
    requires f == if c in w'.connections then RemoveConnectionInLoop(c) else ConnectDestroyed(c)
    requires Left(w', ConnectEstablished(c), {}) == Left(w, ConnectEstablished(c), now)
    requires Left(w', RemoveConnectionInLoop(c), {})
      == Left(w, RemoveConnectionInLoop(c), now) + if f.RemoveConnectionInLoop? then 1 else 0
    requires Left(w', ConnectDestroyed(c), {})
      == Left(w, ConnectDestroyed(c), now) + if f.ConnectDestroyed? then 1 else 0
    ensures ConnInv(w', c, {})
  {
  }

  lemma CloseQueues(w: World, w2: World, c: nat, now: set<Functor>, l: nat, f: Functor)
    requires c in w.conns && Inv(w, now) && Alive(w, c)
    requires IsUp(w.conns[c]) && NoEventOf(w, c) && ClosedBut(w, w2, c, now)
    requires f.c == c && l == Home(w, f)
    requires if c in w2.connections then f.RemoveConnectionInLoop? else f.ConnectDestroyed?
    ensures Inv(Queue(w2, l, f), {})
  {
    var w' := Queue(w2, l, f);
    assert ConnInv(w, c, now);
    CloseConn(w, w2, c, now, l, f);
    assert ChanOwn(w2, c) by { assert LoopOnlyTouches(w, w2, c, w.conns[c].loop); }
    QueueTouches(w2, l, f, {});
    TouchesTrans(w, w2, w', c, now, {}, {});
    Frame(w, w', c, now, {});
  }

  lemma CloseLeft(w: World, w2: World, c: nat, now: set<Functor>, l: nat, f: Functor, g: Functor)
    requires WellFormed(w) && WellFormed(w2) && SameShape(w, w2) && c in w.conns && now <= {ForceCloseInLoop(c)}
    requires forall m :: 0 <= m < |w.loops| ==> w2.loops[m].Todo() == w.loops[m].Todo()
    requires f.c == c && g.c == c && l == Home(w, f) && !g.ForceCloseInLoop?
    ensures Left(Queue(w2, l, f), g, {}) == Left(w, g, now) + if g == f then 1 else 0
  {
    QueueLeft(w2, l, f, g, {});
  }

  lemma DestroyedTouches(w: World, c: nat, now: set<Functor>)
    requires WellFormed(w) && c in w.conns && ChanOwn(w, c) && now == {ConnectDestroyed(c)}
    requires !w.loops[w.conns[c].loop].phase.Handling?
    requires w.conns[c].state == Disconnected && w.conns[c].NoneEvent() && w.conns[c].index == Deleted
    ensures RunConnectDestroyed(w, c).Ok?
    ensures
      var w', k := RunConnectDestroyed(w, c).w, w.conns[c];
      && OnlyTouches(w, w', c, now, {})
      && w'.connections == w.connections && w'.conns[c] == k.(addedToLoop := false, index := New)
      && forall l :: 0 <= l < |w.loops| ==> w'.loops[l].Todo() == w.loops[l].Todo()
  {
    var w' := RunConnectDestroyed(w, c).w;
    forall l | 0 <= l < |w.loops| ensures LoopOnlyTouches(w, w', c, l) {
    }
  }

  lemma DestroyedSafe(w: World, c: nat)
    requires c in w.conns && Inv(w, {ConnectDestroyed(c)}) && Alive(w, c)
    requires !w.loops[w.conns[c].loop].phase.Handling?
    ensures RunConnectDestroyed(w, c).Ok? && Inv(RunConnectDestroyed(w, c).w, {})
  {
    var f := ConnectDestroyed(c);
    assert ConnInv(w, c, {f});
    assert ChanOwn(w, c) by { assert LoopInv(w, w.conns[c].loop); }
    DestroyedTouches(w, c, {f});
    var w' := RunConnectDestroyed(w, c).w;
    assert ConnInv(w', c, {}) by { ConnAfter(w, w', c, f); }
    Frame(w, w', c, {f}, {});
  }

  // A change of the mask or of the state that keeps a connection up
  lemma UpKept(w: World, c: nat, k: Conn)
    requires c in w.conns && Inv(w, {}) && IsUp(w.conns[c]) && IsUp(k)
    requires k == w.conns[c].(state := k.state, writing := k.writing)
    ensures Alive(w, c) && ChanOwn(w, c)
    ensures Inv(SetConn(w, c, k), {})
    ensures UpdateChannel(w, c, k) == Ok(SetConn(w, c, k))
  {
    assert ConnInv(w, c, {}) && LoopInv(w, k.loop);
    var w' := SetConn(w, c, k);
    forall l | 0 <= l < |w.loops| ensures LoopOnlyTouches(w, w', c, l) {
      assert LoopInv(w, l);
    }
    assert ConnInv(w', c, {});
    Frame(w, w', c, {}, {});
  }

  // Functors that only use a connection may be queued while it is up.
  lemma UseQueued(w: World, c: nat, f: Functor)
    requires c in w.conns && Inv(w, {}) && IsUp(w.conns[c]) && f.c == c && (f.ForceCloseInLoop? || f.WriteComplete?)
    ensures Inv(Queue(w, w.conns[c].loop, f), {})
  {
    var l := w.conns[c].loop;
    UpKept(w, c, w.conns[c]);
    assert ConnInv(w, c, {});
    var w' := Queue(w, l, f);
    QueueTouches(w, l, f, {});
    QueueLeft(w, l, f, ConnectEstablished(c), {});
    QueueLeft(w, l, f, RemoveConnectionInLoop(c), {});
    QueueLeft(w, l, f, ConnectDestroyed(c), {});
    assert ConnInv(w', c, {});
    Frame(w, w', c, {}, {});
  }

  lemma ForceCloseSafe(w: World, c: nat)
    requires c in w.conns && Inv(w, {})
    ensures Inv(DoForceClose(w, c), {})
  {
    if IsUp(w.conns[c]) {
      var k := w.conns[c].(state := Disconnecting);
      UpKept(w, c, k);
      UseQueued(SetConn(w, c, k), c, ForceCloseInLoop(c));
    }
  }

  lemma ShutdownSafe(w: World, c: nat)
    requires c in w.conns && Inv(w, {})
    ensures Inv(DoShutdown(w, c), {})
  {
    if w.conns[c].state == Connected {
      UpKept(w, c, w.conns[c].(state := Disconnecting));
    }
  }

  lemma SendSafe(w: World, c: nat, leftover: bool, hasWriteComplete: bool)
    requires c in w.conns && Inv(w, {})
    ensures DoSend(w, c, leftover, hasWriteComplete).Ok? && Inv(DoSend(w, c, leftover, hasWriteComplete).w, {})
  {
    if w.conns[c].state == Connected {
      UpKept(w, c, w.conns[c].(writing := true));
      UseQueued(w, c, WriteComplete(c));
    }
  }

  lemma WriteSafe(w: World, c: nat, env: Env)
    requires c in w.conns && Inv(w, {})
    ensures HandleWrite(w, c, env).Ok? && Inv(HandleWrite(w, c, env).w, {})
  {
    var k := w.conns[c];
    if k.writing && env.drained {
      assert IsUp(k) by { assert ConnInv(w, c, {}); }
      var k' := k.(writing := false);
      UpKept(w, c, k');
      UseQueued(SetConn(w, c, k'), c, WriteComplete(c));
    }
  }

  lemma ReadSafe(w: World, c: nat, r: ReadResult)
    requires c in w.conns && Inv(w, {}) && IsUp(w.conns[c]) && NoEventOf(w, c)
    ensures HandleRead(w, c, r).Ok? && Inv(HandleRead(w, c, r).w, {})
  {
    match r
    case Bytes(_) => ForceCloseSafe(w, c);
    case Eof => CloseSafe(w, c, {});
    case ReadError =>
  }

  lemma IoSafe(w: World, e: Event, env: Env)
    requires e.Io? && e.c in w.conns && Inv(w, {}) && IsUp(w.conns[e.c]) && NoEventOf(w, e.c)
    ensures HandleIo(w, e, env).Ok? && Inv(HandleIo(w, e, env).w, {})
  {
    var w1 := w;
    if e.revHup && !e.revIn {
      CloseSafe(w, e.c, {});
      w1 := HandleClose(w, e.c).w;
    } else if e.revIn {
      ReadSafe(w, e.c, env.read);
      w1 := HandleRead(w, e.c, env.read).w;
    }
    WriteSafe(w1, e.c, env);
  }

  lemma ExecuteSafe(w: World, f: Functor)
    requires f.c in w.conns && Inv(w, {f}) && Alive(w, f.c) && !w.loops[Home(w, f)].phase.Handling?
    ensures Execute(w, f).Ok? && Inv(Execute(w, f).w, {})
  {
    match f
    case ConnectEstablished(c) => EstablishedSafe(w, c);
    case WriteComplete(c) => NowForgotten(w, f);
    case ForceCloseInLoop(c) => if IsUp(w.conns[c]) { CloseSafe(w, c, {f}); } else { NowForgotten(w, f); }
    case RemoveConnectionInLoop(c) => RemoveSafe(w, c);
    case ConnectDestroyed(c) => DestroyedSafe(w, c);
  }

  // A functor that only uses its connection is owed nothing.
  lemma NowForgotten(w: World, f: Functor)
    requires Inv(w, {f}) && (f.WriteComplete? || f.ForceCloseInLoop?)
    ensures Inv(w, {})
  {
    forall c | c in w.conns ensures c < w.nextConnId && ConnInv(w, c, {}) {
      assert ConnInv(w, c, {f});
    }
  }

  // The fresh connection, as if connectEstablished were being run for it
  ghost function WithNew(w: World, ioLoop: nat, fd: int): World {
    SetConn(w, w.nextConnId, Conn(ioLoop, fd, Connecting, false, false, New, false, []))
      .(nextConnId := w.nextConnId + 1, connections := w.connections + {w.nextConnId})
  }

  lemma NumbersBelow(w: World)
    requires Inv(w, {})
    ensures forall c :: c in w.conns ==> c < w.nextConnId
  {
    forall c | c in w.conns ensures c < w.nextConnId {
      assert ConnInv(w, c, {});
    }
  }

  lemma TodoHeld(p: Loop)
    ensures forall f :: f in p.Todo() ==> f in p.Held()
  {
  }

  lemma WithNewConns(w: World, ioLoop: nat, fd: int)
    requires Inv(w, {}) && ioLoop < |w.loops|
    ensures WellFormed(WithNew(w, ioLoop, fd))
    ensures ConnsInv(WithNew(w, ioLoop, fd), {ConnectEstablished(w.nextConnId)})
  {
    var c, w1 := w.nextConnId, WithNew(w, ioLoop, fd);
    var now := {ConnectEstablished(c)};
    NumbersBelow(w);
    forall d | d in w1.conns ensures d < w1.nextConnId && ConnInv(w1, d, now) {
      if d == c {
        NewConnInv(w, ioLoop, fd);
      } else {
        OldConnInv(w, ioLoop, fd, d);
      }
    }
  }

  lemma NewConnInv(w: World, ioLoop: nat, fd: int)
    requires Inv(w, {}) && ioLoop < |w.loops| && w.nextConnId !in w.conns
    ensures ConnInv(WithNew(w, ioLoop, fd), w.nextConnId, {ConnectEstablished(w.nextConnId)})
  {
    NoFunctorOf(w, w.nextConnId, ioLoop);
    NoFunctorOf(w, w.nextConnId, 0);
  }

  lemma OldConnInv(w: World, ioLoop: nat, fd: int, d: nat)
    requires Inv(w, {}) && ioLoop < |w.loops| && w.nextConnId !in w.conns && d in w.conns
    ensures ConnInv(WithNew(w, ioLoop, fd), d, {ConnectEstablished(w.nextConnId)})
  {
    assert ConnInv(w, d, {});
  }

  lemma NoFunctorOf(w: World, c: nat, l: nat)
    requires l < |w.loops| && LoopsInv(w) && c !in w.conns
    ensures forall f: Functor :: f.c == c ==> f !in w.loops[l].Held() && multiset(w.loops[l].Todo())[f] == 0
  {
    assert LoopInv(w, l);
    TodoHeld(w.loops[l]);
  }

  lemma WithNewLoops(w: World, ioLoop: nat, fd: int)
    requires Inv(w, {}) && ioLoop < |w.loops| && w.nextConnId !in w.conns
    ensures LoopsInv(WithNew(w, ioLoop, fd))
  {
    var w1 := WithNew(w, ioLoop, fd);
    forall l | 0 <= l < |w1.loops| ensures LoopInv(w1, l) {
      assert LoopInv(w, l);
    }
  }

  lemma WithNewFd(w: World, ioLoop: nat, fd: int)
    requires FdInv(w) && w.nextConnId !in w.conns
    requires forall c :: c in w.conns && Alive(w, c) ==> w.conns[c].fd != fd
    ensures FdInv(WithNew(w, ioLoop, fd))
  {
    var w1 := WithNew(w, ioLoop, fd);
    forall c | c in w.conns && Alive(w1, c) ensures Alive(w, c) {
      if c !in w.connections {
        var l :| 0 <= l < |w1.loops| && Holds(w1.loops[l].Held(), c);
        assert Holds(w.loops[l].Held(), c);
      }
    }
  }

  lemma NewConnectionSafe(w: World, ioLoop: nat, fd: int)
    requires Inv(w, {}) && ioLoop < |w.loops|
    requires forall c :: c in w.conns && Alive(w, c) ==> w.conns[c].fd != fd
    ensures NewConnection(w, ioLoop, fd).Ok? && Inv(NewConnection(w, ioLoop, fd).w, {})
  {
    var c, w1 := w.nextConnId, WithNew(w, ioLoop, fd);
    NumbersBelow(w);
    WithNewConns(w, ioLoop, fd);
    WithNewLoops(w, ioLoop, fd);
    WithNewFd(w, ioLoop, fd);
    if ioLoop == 0 {
      EstablishedSafe(w1, c);
    } else {
      EstablishQueued(w1, c);
    }
  }

  lemma EstablishQueued(w: World, c: nat)
    requires c in w.conns && Inv(w, {ConnectEstablished(c)}) && Alive(w, c)
    ensures Inv(Queue(w, w.conns[c].loop, ConnectEstablished(c)), {})
  {
    var f := ConnectEstablished(c);
    var l := w.conns[c].loop;
    var w' := Queue(w, l, f);
    assert ConnInv(w, c, {f});
    RegisteredUpdatable(w, c, {f});
    assert LoopInv(w, l) && ChanOwn(w, c);
    QueueTouches(w, l, f, {f});
    assert OnlyTouches(w, w', c, {f}, {});
    QueueLeft(w, l, f, f, {});
    QueueLeft(w, l, f, RemoveConnectionInLoop(c), {});
    QueueLeft(w, l, f, ConnectDestroyed(c), {});
    assert ConnInv(w', c, {});
    Frame(w, w', c, {f}, {});
  }

  // -------- each step keeps it --------

  // A loop moves on: what is left to run there and what is being run now stay the same together.
  ghost predicate Moves(w: World, l: nat, p: Loop, now: set<Functor>) {
    && l < |w.loops| && p.channels == w.loops[l].channels
    && (forall f: Functor :: multiset(p.Todo())[f] + (if f in now then 1 else 0) == multiset(w.loops[l].Todo())[f])
    && (forall f :: f in p.Held() ==> f in w.loops[l].Held())
    && (forall f :: f in now ==> f.c in w.conns && Home(w, f) == l)
  }

  lemma MovesConns(w: World, l: nat, p: Loop, now: set<Functor>)
    requires WellFormed(w) && ConnsInv(w, {}) && Moves(w, l, p, now)
    ensures ConnsInv(w.(loops := w.loops[l := p]), now)
  {
    var w' := w.(loops := w.loops[l := p]);
    forall c | c in w'.conns ensures c < w'.nextConnId && ConnInv(w', c, now) {
      assert ConnInv(w, c, {});
      MovesLeft(w, l, p, now, ConnectEstablished(c));
      MovesLeft(w, l, p, now, RemoveConnectionInLoop(c));
      MovesLeft(w, l, p, now, ConnectDestroyed(c));
    }
  }

  lemma MovesAlive(w: World, l: nat, p: Loop, now: set<Functor>)
    requires Moves(w, l, p, now)
    ensures forall c :: Alive(w.(loops := w.loops[l := p]), c) ==> Alive(w, c)
  {
    var w' := w.(loops := w.loops[l := p]);
    forall c | Alive(w', c) ensures Alive(w, c) {
      if c !in w.connections {
        var m :| 0 <= m < |w'.loops| && Holds(w'.loops[m].Held(), c);
        assert Holds(w.loops[m].Held(), c);
      }
    }
  }

  lemma MovesFd(w: World, l: nat, p: Loop, now: set<Functor>)
    requires FdInv(w) && Moves(w, l, p, now)
    ensures FdInv(w.(loops := w.loops[l := p]))
  {
    var w' := w.(loops := w.loops[l := p]);
    MovesAlive(w, l, p, now);
    forall c, d | c in w'.conns && d in w'.conns && c != d && Alive(w', c) && Alive(w', d)
      ensures w'.conns[c].fd != w'.conns[d].fd
    {
      assert Alive(w, c) && Alive(w, d);
    }
  }

  lemma MovesLoops(w: World, l: nat, p: Loop, now: set<Functor>)
    requires LoopsInv(w) && Moves(w, l, p, now)
    requires ActiveInv(w.(loops := w.loops[l := p]), l)
    ensures LoopsInv(w.(loops := w.loops[l := p]))
  {
    var w' := w.(loops := w.loops[l := p]);
    forall m | 0 <= m < |w'.loops| ensures LoopInv(w', m) {
      assert LoopInv(w, m);
    }
  }

  lemma LoopMoves(w: World, l: nat, p: Loop, now: set<Functor>)
    requires Inv(w, {}) && Moves(w, l, p, now) && ActiveInv(w.(loops := w.loops[l := p]), l)
    ensures Inv(w.(loops := w.loops[l := p]), now)
  {
    MovesConns(w, l, p, now);
    MovesFd(w, l, p, now);
    MovesLoops(w, l, p, now);
  }

  lemma MovesLeft(w: World, l: nat, p: Loop, now: set<Functor>, f: Functor)
    requires WellFormed(w) && l < |w.loops| && f.c in w.conns
    requires forall g: Functor :: multiset(p.Todo())[g] + (if g in now then 1 else 0) == multiset(w.loops[l].Todo())[g]
    requires f in now ==> Home(w, f) == l
    ensures Left(w.(loops := w.loops[l := p]), f, now) == Left(w, f, {})
  {
  }

  lemma PollSafe(w: World, l: nat, ready: seq<Event>)
    requires Inv(w, {}) && Enabled(w, Poll(l, ready))
    ensures Step(w, Poll(l, ready)).Ok? && Inv(Step(w, Poll(l, ready)).w, {})
  {
    assert LoopInv(w, l);
    forall e | e in ready && e.Io? ensures IsUp(w.conns[e.c]) {
      assert Reportable(w, l, e) && ConnInv(w, e.c, {});
    }
    LoopMoves(w, l, w.loops[l].(phase := Handling(ready)), {});
  }

  lemma HandleNextSafe(w: World, l: nat, env: Env)
    requires Inv(w, {}) && Enabled(w, HandleNext(l, env))
    ensures Step(w, HandleNext(l, env)).Ok? && Inv(Step(w, HandleNext(l, env)).w, {})
  {
    assert LoopInv(w, l);
    var active := w.loops[l].phase.active;
    var e := active[0];
    assert e in active;
    forall x | x in active[1..] ensures x in active { }
    var p' := w.loops[l].(phase := Handling(active[1..]));
    LoopMoves(w, l, p', {});
    var w1 := SetPhase(w, l, Handling(active[1..]));
    if e.Accept? {
      MovesAlive(w, l, p', {});
      NewConnectionSafe(w1, e.ioLoop, e.fd);
    } else {
      assert ConnInv(w, e.c, {});
      IoSafe(w1, e, env);
    }
  }

  lemma SwapSafe(w: World, l: nat)
    requires Inv(w, {}) && Enabled(w, Swap(l))
    ensures Inv(Step(w, Swap(l)).w, {})
  {
    var p := w.loops[l];
    var p' := p.(phase := Calling([], p.pending), pending := []);
    assert p'.Todo() == p.Todo() && p'.Held() == p.Held();
    LoopMoves(w, l, p', {});
  }

  lemma CountCons(s: seq<Functor>, f: Functor, g: Functor)
    ensures multiset([f] + s)[g] == multiset(s)[g] + if g == f then 1 else 0
  {
  }

  lemma PopLoop(p: Loop, f: Functor, p': Loop)
    requires p.phase.Calling? && p.phase.todo != [] && f == p.phase.todo[0]
    requires p' == p.(phase := Calling(p.phase.done + [f], p.phase.todo[1..]))
    ensures p'.Held() == p.Held() && p.Todo() == [f] + p'.Todo()
  {
    assert p.phase.todo == [f] + p.phase.todo[1..];
  }

  lemma RunFunctorStarts(w: World, l: nat)
    requires Inv(w, {}) && Enabled(w, RunFunctor(l))
    ensures
      var phase := w.loops[l].phase;
      var f := phase.todo[0];
      var w1 := SetPhase(w, l, Calling(phase.done + [f], phase.todo[1..]));
      f.c in w.conns && Inv(w1, {f}) && Alive(w1, f.c) && Home(w1, f) == l
  {
    assert LoopInv(w, l);
    var p := w.loops[l];
    var f := p.phase.todo[0];
    assert f in p.Held();
    var p' := p.(phase := Calling(p.phase.done + [f], p.phase.todo[1..]));
    PopLoop(p, f, p');
    forall g: Functor ensures multiset(p'.Todo())[g] + (if g == f then 1 else 0) == multiset(p.Todo())[g] {
      CountCons(p'.Todo(), f, g);
    }
    LoopMoves(w, l, p', {f});
    var w1 := SetPhase(w, l, p'.phase);
    assert Holds(w1.loops[l].Held(), f.c);
  }

  lemma RunFunctorSafe(w: World, l: nat)
    requires Inv(w, {}) && Enabled(w, RunFunctor(l))
    ensures Step(w, RunFunctor(l)).Ok? && Inv(Step(w, RunFunctor(l)).w, {})
  {
    RunFunctorStarts(w, l);
    var phase := w.loops[l].phase;
    var f := phase.todo[0];
    ExecuteSafe(SetPhase(w, l, Calling(phase.done + [f], phase.todo[1..])), f);
  }

  lemma EndBatchSafe(w: World, l: nat)
    requires Inv(w, {}) && Enabled(w, EndBatch(l))
    ensures Inv(Step(w, EndBatch(l)).w, {})
  {
    var p := w.loops[l];
    assert p.(phase := Polling).Todo() == p.Todo();
    LoopMoves(w, l, p.(phase := Polling), {});
  }

  lemma StepSafe(w: World, a: Action)
    requires Inv(w, {}) && Enabled(w, a)
    ensures Step(w, a).Ok? && Inv(Step(w, a).w, {})
  {
    match a
    case Poll(l, ready) => PollSafe(w, l, ready);
    case HandleNext(l, env) => HandleNextSafe(w, l, env);
    case Swap(l) => SwapSafe(w, l);
    case RunFunctor(l) => RunFunctorSafe(w, l);
    case EndBatch(l) => EndBatchSafe(w, l);
    case Send(c, leftover, hasWriteComplete) => SendSafe(w, c, leftover, hasWriteComplete);
    case Shutdown(c) => ShutdownSafe(w, c);
    case ForceClose(c) => ForceCloseSafe(w, c);
  }

  // -------- what it means for whole runs --------

  // All loops blocked in poll, nothing accepted yet
  ghost function Start(n: nat): World {
    World(seq(n, _ => Loop(Polling, [], map[])), map[], {}, 1)
  }

  // A schedule is any list of actions; one that is not possible when its turn comes is skipped.
  ghost function Run(w: World, schedule: seq<Action>): Outcome
    requires WellFormed(w)
    decreases schedule
  {
    if schedule == [] then Ok(w)
    else if !Enabled(w, schedule[0]) then Run(w, schedule[1..])
    else
      var w1 :- Step(w, schedule[0]);
      if WellFormed(w1) then Run(w1, schedule[1..]) else AssertFailed("malformed")
  }

  lemma StartInv(n: nat)
    requires n > 0
    ensures Inv(Start(n), {})
  {
    var w := Start(n);
    forall l | 0 <= l < |w.loops| ensures LoopInv(w, l) {
    }
  }

  lemma {:induction false} RunKeepsInv(w: World, schedule: seq<Action>)
    requires Inv(w, {})
    ensures Run(w, schedule).Ok? && Inv(Run(w, schedule).w, {})
    decreases schedule
  {
    if schedule != [] {
      if Enabled(w, schedule[0]) {
        StepSafe(w, schedule[0]);
        RunKeepsInv(Step(w, schedule[0]).w, schedule[1..]);
      } else {
        RunKeepsInv(w, schedule[1..]);
      }
    }
  }

  // Main result: no schedule of any number of loops makes any assert of the code fail.
  lemma AssertsNeverFail(n: nat, schedule: seq<Action>)
    requires n > 0
    ensures Run(Start(n), schedule).Ok? && Inv(Run(Start(n), schedule).w, {})
  {
    StartInv(n);
    RunKeepsInv(Start(n), schedule);
  }

  // How far a connection has come
  datatype Stage = EstablishPending | IsUpStage | RemovePending | DestroyPending | Gone

  function StageOf(w: World, c: nat): Stage
    requires c in w.conns
  {
    var k := w.conns[c];
    if k.state == Connecting then EstablishPending
    else if k.state != Disconnected then IsUpStage
    else if c in w.connections then RemovePending
    else if k.index != New then DestroyPending
    else Gone
  }

  function Rank(s: Stage): nat {
    match s
    case EstablishPending => 0
    case IsUpStage => 1
    case RemovePending => 2
    case DestroyPending => 3
    case Gone => 4
  }

  // Nobody goes back, and only c may go on: by one stage, or on the base loop past removal at once.
  ghost predicate Forward(w: World, w': World, c: nat) {
    forall d :: d in w.conns ==>
      && d in w'.conns
      && w'.conns[d].loop == w.conns[d].loop
      && (d != c ==> StageOf(w', d) == StageOf(w, d))
      && Rank(StageOf(w, d)) <= Rank(StageOf(w', d))
          <= Rank(StageOf(w, d)) + if w.conns[d].loop == 0 then 2 else 1
  }

  ghost predicate Standstill(w: World, w': World) {
    forall d :: d in w.conns ==> d in w'.conns && w'.conns[d].loop == w.conns[d].loop && StageOf(w', d) == StageOf(w, d)
  }

  ghost predicate OnlyConn(w: World, w': World, c: nat) {
    && c in w.conns && c in w'.conns && w'.conns == w.conns[c := w'.conns[c]]
    && (w'.connections == w.connections || w'.connections == w.connections - {c})
    && w'.conns[c].loop == w.conns[c].loop
  }

  lemma ForwardFrom(w: World, w': World, c: nat)
    requires OnlyConn(w, w', c)
    requires Rank(StageOf(w, c)) <= Rank(StageOf(w', c))
          <= Rank(StageOf(w, c)) + if w.conns[c].loop == 0 then 2 else 1
    ensures Forward(w, w', c)
  {
  }

  lemma StandstillFrom(w: World, w': World, c: nat)
    requires OnlyConn(w, w', c) && StageOf(w', c) == StageOf(w, c)
    ensures Standstill(w, w')
  {
  }

  lemma CloseEffect(w: World, c: nat)
    requires WellFormed(w) && c in w.conns && IsUp(w.conns[c]) && w.conns[c].index == Added && HandleClose(w, c).Ok?
    ensures
      var w', k := HandleClose(w, c).w, w.conns[c];
      && w'.conns == w.conns[c := k.(state := Disconnected, reading := false, writing := false, index := Deleted,
                                     addedToLoop := true, fired := k.fired + [Down])]
      && w'.connections == if k.loop == 0 then w.connections - {c} else w.connections
  {
  }

  lemma CloseForward(w: World, c: nat)
    requires WellFormed(w) && c in w.conns && IsUp(w.conns[c]) && w.conns[c].index == Added && HandleClose(w, c).Ok?
    requires c in w.connections
    ensures Forward(w, HandleClose(w, c).w, c)
    ensures HandleClose(w, c).w.conns[c].NoneEvent()
  {
    CloseEffect(w, c);
    ForwardFrom(w, HandleClose(w, c).w, c);
  }

  lemma WriteStandstill(w: World, c: nat, env: Env)
    requires WellFormed(w) && c in w.conns && HandleWrite(w, c, env).Ok?
    requires w.conns[c].writing ==> IsUp(w.conns[c])
    ensures Standstill(w, HandleWrite(w, c, env).w)
  {
    StandstillFrom(w, HandleWrite(w, c, env).w, c);
  }

  lemma ReadStandstill(w: World, c: nat, r: ReadResult)
    requires WellFormed(w) && c in w.conns && !r.Eof?
    ensures HandleRead(w, c, r).Ok? && Standstill(w, HandleRead(w, c, r).w)
    ensures IsUp(w.conns[c]) ==> IsUp(HandleRead(w, c, r).w.conns[c])
  {
    StandstillFrom(w, HandleRead(w, c, r).w, c);
  }

  lemma IoForward(w: World, e: Event, env: Env)
    requires e.Io? && e.c in w.conns && WellFormed(w) && HandleIo(w, e, env).Ok?
    requires IsUp(w.conns[e.c]) && w.conns[e.c].index == Added && e.c in w.connections
    ensures Forward(w, HandleIo(w, e, env).w, e.c)
  {
    if (e.revHup && !e.revIn) || (e.revIn && env.read.Eof?) {
      CloseForward(w, e.c);
    } else if e.revIn {
      ReadStandstill(w, e.c, env.read);
      WriteAfter(w, HandleRead(w, e.c, env.read).w, e, env);
    } else {
      WriteAfter(w, w, e, env);
    }
  }

  lemma WriteAfter(w: World, w1: World, e: Event, env: Env)
    requires WellFormed(w) && WellFormed(w1) && Standstill(w, w1) && e.Io? && e.c in w1.conns && IsUp(w1.conns[e.c])
    requires e.revOut ==> HandleWrite(w1, e.c, env).Ok?
    ensures Forward(w, if e.revOut then HandleWrite(w1, e.c, env).w else w1, e.c)
  {
    if e.revOut { WriteStandstill(w1, e.c, env); }
  }

  lemma EstablishedForward(w: World, c: nat)
    requires WellFormed(w) && c in w.conns && RunConnectEstablished(w, c).Ok?
    ensures Forward(w, RunConnectEstablished(w, c).w, c)
  {
    ForwardFrom(w, RunConnectEstablished(w, c).w, c);
  }

  lemma RemoveForward(w: World, c: nat)
    requires WellFormed(w) && c in w.conns && RunRemoveConnection(w, c).Ok?
    requires w.conns[c].state == Disconnected && w.conns[c].index == Deleted
    ensures Forward(w, RunRemoveConnection(w, c).w, c)
  {
    ForwardFrom(w, RunRemoveConnection(w, c).w, c);
  }

  lemma DestroyedForward(w: World, c: nat)
    requires WellFormed(w) && c in w.conns && RunConnectDestroyed(w, c).Ok?
    requires w.conns[c].state == Disconnected && c !in w.connections
    ensures Forward(w, RunConnectDestroyed(w, c).w, c)
  {
    ForwardFrom(w, RunConnectDestroyed(w, c).w, c);
  }

  lemma ExecuteForward(w: World, f: Functor)
    requires f.c in w.conns && Inv(w, {f}) && Execute(w, f).Ok?
    ensures Forward(w, Execute(w, f).w, f.c)
  {
    var c := f.c;
    assert ConnInv(w, c, {f});
    match f
    case ConnectEstablished(_) => EstablishedForward(w, c);
    case WriteComplete(_) =>
    case ForceCloseInLoop(_) => if IsUp(w.conns[c]) { CloseForward(w, c); }
    case RemoveConnectionInLoop(_) => RemoveForward(w, c);
    case ConnectDestroyed(_) => DestroyedForward(w, c);
  }

  lemma AcceptForward(w: World, ioLoop: nat, fd: int)
    requires WellFormed(w) && ioLoop < |w.loops| && w.nextConnId !in w.conns && NewConnection(w, ioLoop, fd).Ok?
    ensures Forward(w, NewConnection(w, ioLoop, fd).w, 0)
  {
    var w' := NewConnection(w, ioLoop, fd).w;
    AcceptOthers(w, ioLoop, fd);
    forall d | d in w.conns ensures StageOf(w', d) == StageOf(w, d) {
    }
  }

  lemma AcceptOthers(w: World, ioLoop: nat, fd: int)
    requires WellFormed(w) && ioLoop < |w.loops| && w.nextConnId !in w.conns && NewConnection(w, ioLoop, fd).Ok?
    ensures
      var w' := NewConnection(w, ioLoop, fd).w;
      forall d :: d in w.conns ==>
        d in w'.conns && w'.conns[d] == w.conns[d] && (d in w'.connections <==> d in w.connections)
  {
    if ioLoop == 0 {
      EstablishedOthers(WithNew(w, ioLoop, fd), w.nextConnId);
    }
  }

  lemma EstablishedOthers(w: World, c: nat)
    requires WellFormed(w) && c in w.conns && RunConnectEstablished(w, c).Ok?
    ensures
      var w' := RunConnectEstablished(w, c).w;
      && w'.connections == w.connections && w'.conns.Keys == w.conns.Keys
      && forall d :: d in w.conns && d != c ==> w'.conns[d] == w.conns[d]
  {
  }

  lemma ForwardSame(w: World, w1: World, w': World, c: nat)
    requires w1.conns == w.conns && w1.connections == w.connections && Forward(w1, w', c)
    ensures Forward(w, w', c)
  {
  }

  lemma HandleNextForward(w: World, l: nat, w1: World, e: Event)
    requires Inv(w, {}) && l < |w.loops| && w.loops[l].phase.Handling? && w.loops[l].phase.active != []
    requires w1 == SetPhase(w, l, Handling(w.loops[l].phase.active[1..])) && e == w.loops[l].phase.active[0]
    ensures WellFormed(w1) && w1.nextConnId !in w1.conns
    ensures e.Io? ==> e.c in w1.conns && IsUp(w1.conns[e.c]) && w1.conns[e.c].index == Added && e.c in w1.connections
    ensures e.Accept? ==> e.ioLoop < |w1.loops|
  {
    assert e in w.loops[l].phase.active && LoopInv(w, l);
    NumbersBelow(w);
    if e.Io? {
      assert ConnInv(w, e.c, {});
    }
  }

  lemma SendStandstill(w: World, c: nat, leftover: bool, hasWriteComplete: bool)
    requires WellFormed(w) && c in w.conns && DoSend(w, c, leftover, hasWriteComplete).Ok?
    ensures Standstill(w, DoSend(w, c, leftover, hasWriteComplete).w)
  {
    StandstillFrom(w, DoSend(w, c, leftover, hasWriteComplete).w, c);
  }

  lemma ShutdownStandstill(w: World, c: nat)
    requires WellFormed(w) && c in w.conns
    ensures Standstill(w, DoShutdown(w, c)) && Standstill(w, DoForceClose(w, c))
  {
    StandstillFrom(w, DoShutdown(w, c), c);
    StandstillFrom(w, DoForceClose(w, c), c);
  }

  // Main result: each step moves at most one connection, and only forward through its stages.
  lemma StepForward(w: World, a: Action)
    requires Inv(w, {}) && Enabled(w, a)
    ensures Step(w, a).Ok? && exists c :: Forward(w, Step(w, a).w, c)
  {
    StepSafe(w, a);
    var w' := Step(w, a).w;
    match a
    case HandleNext(l, env) => StepEventForward(w, l, env);
    case RunFunctor(l) => StepFunctorForward(w, l);
    case Poll(_, _) => assert Forward(w, w', 0);
    case Swap(_) => assert Forward(w, w', 0);
    case EndBatch(_) => assert Forward(w, w', 0);
    case Send(c, leftover, hasWriteComplete) =>
      SendStandstill(w, c, leftover, hasWriteComplete);
      assert Forward(w, w', c);
    case Shutdown(c) =>
      ShutdownStandstill(w, c);
      assert Forward(w, w', c);
    case ForceClose(c) =>
      ShutdownStandstill(w, c);
      assert Forward(w, w', c);
  }

  lemma StepEventForward(w: World, l: nat, env: Env)
    requires Inv(w, {}) && Enabled(w, HandleNext(l, env)) && Step(w, HandleNext(l, env)).Ok?
    ensures exists c :: Forward(w, Step(w, HandleNext(l, env)).w, c)
  {
    var w' := Step(w, HandleNext(l, env)).w;
    var e := w.loops[l].phase.active[0];
    var w1 := SetPhase(w, l, Handling(w.loops[l].phase.active[1..]));
    HandleNextForward(w, l, w1, e);
    if e.Io? {
      IoForward(w1, e, env);
      ForwardSame(w, w1, w', e.c);
    } else {
      AcceptForward(w1, e.ioLoop, e.fd);
      ForwardSame(w, w1, w', 0);
    }
  }

  lemma StepFunctorForward(w: World, l: nat)
    requires Inv(w, {}) && Enabled(w, RunFunctor(l)) && Step(w, RunFunctor(l)).Ok?
    ensures exists c :: Forward(w, Step(w, RunFunctor(l)).w, c)
  {
    var p := w.loops[l].phase;
    var w1 := SetPhase(w, l, Calling(p.done + [p.todo[0]], p.todo[1..]));
    RunFunctorStarts(w, l);
    ExecuteForward(w1, p.todo[0]);
    ForwardSame(w, w1, Step(w, RunFunctor(l)).w, p.todo[0].c);
  }

  // Main result: in every reachable state the callbacks fired so far are those of the stage, UP
  // then DOWN once each, and exactly one functor is owed to a connection that is between stages.
  lemma StageExplained(w: World, c: nat)
    requires Inv(w, {}) && c in w.conns
    ensures
      var stage := StageOf(w, c);
      && w.conns[c].fired == (match stage case EstablishPending => [] case IsUpStage => [Up] case _ => [Up, Down])
      && (Left(w, ConnectEstablished(c), {}) == if stage.EstablishPending? then 1 else 0)
      && (Left(w, RemoveConnectionInLoop(c), {}) == if stage.RemovePending? then 1 else 0)
      && (Left(w, ConnectDestroyed(c), {}) == if stage.DestroyPending? then 1 else 0)
      && (c in w.connections <==> Rank(stage) <= 2)
      && (w.conns[c].index == Added <==> stage.IsUpStage?)
  {
    assert ConnInv(w, c, {});
  }

  // Main result: the last pointer to a connection goes away only after connectDestroyed has run, so
  // the asserts of ~TcpConnection and ~Channel hold whenever they are reached.
  lemma LastReference(w: World, c: nat)
    requires Inv(w, {}) && c in w.conns && !Alive(w, c)
    ensures StageOf(w, c) == Gone
    ensures w.conns[c].state == Disconnected && !w.conns[c].addedToLoop
    ensures forall l, fd :: 0 <= l < |w.loops| && fd in w.loops[l].channels ==> w.loops[l].channels[fd] != c
    ensures forall l, e :: 0 <= l < |w.loops| && w.loops[l].phase.Handling? && e in w.loops[l].phase.active ==>
      e.Io? ==> e.c != c
  {
    assert ConnInv(w, c, {});
    if w.conns[c].index != New { AliveIfRegistered(w, c, {}); }
    forall l | 0 <= l < |w.loops|
      ensures forall fd :: fd in w.loops[l].channels ==> w.loops[l].channels[fd] != c
      ensures w.loops[l].phase.Handling? ==> forall e :: e in w.loops[l].phase.active && e.Io? ==> e.c != c
    {
      assert LoopInv(w, l);
    }
  }

  // Main result: nothing is left hanging.  Once all loops are blocked with nothing queued, each
  // connection is up and in the server's map, or gone and pointed to by nobody.
  lemma NothingHangs(w: World, c: nat)
    requires Inv(w, {}) && c in w.conns
    requires forall l :: 0 <= l < |w.loops| ==> w.loops[l].phase.Polling? && w.loops[l].pending == []
    ensures if c in w.connections then StageOf(w, c) == IsUpStage else StageOf(w, c) == Gone && !Alive(w, c)
  {
    assert ConnInv(w, c, {});
    assert forall f: Functor :: multiset(w.loops[w.conns[c].loop].Todo())[f] == 0;
    assert forall f: Functor :: multiset(w.loops[0].Todo())[f] == 0;
    assert forall l :: 0 <= l < |w.loops| ==> w.loops[l].Held() == [];
  }

  // Main result: over any stretch of any run no connection is lost or goes back a stage.
  lemma {:induction false} RunForward(w: World, schedule: seq<Action>, c: nat)
    requires Inv(w, {}) && c in w.conns
    ensures Run(w, schedule).Ok? && c in Run(w, schedule).w.conns
    ensures Rank(StageOf(w, c)) <= Rank(StageOf(Run(w, schedule).w, c))
    decreases schedule
  {
    if schedule != [] {
      if Enabled(w, schedule[0]) {
        StepForward(w, schedule[0]);
        StepSafe(w, schedule[0]);
        RunForward(Step(w, schedule[0]).w, schedule[1..], c);
      } else {
        RunForward(w, schedule[1..], c);
      }
    }
  }

  // -------- the kernel's side --------

  function MaskOf(k: Conn): Mask { Mask(k.reading, k.writing) }

  predicate Registered(w: World, l: nat, fd: int)
    requires l < |w.loops|
  {
    var chans := w.loops[l].channels;
    fd in chans && chans[fd] in w.conns && w.conns[chans[fd]].index == Added
  }

  // The interest set of a loop's poller: the channels whose index is kAdded, with their masks
  function Kernel(w: World, l: nat): map<int, Mask>
    requires l < |w.loops|
  {
    map fd | fd in w.loops[l].channels && Registered(w, l, fd) :: MaskOf(w.conns[w.loops[l].channels[fd]])
  }

  // What a change of one connection makes of the interest set of its loop
  lemma KernelChanges(w: World, w': World, c: nat, l: nat, fd: int)
    requires l < |w.loops| && l < |w'.loops| && c in w.conns && c in w'.conns && w'.conns == w.conns[c := w'.conns[c]]
    requires w'.loops[l].channels == w.loops[l].channels[fd := c]
    requires forall other :: other in w.loops[l].channels && other != fd ==> w.loops[l].channels[other] != c
    ensures
      var k := w'.conns[c];
      Kernel(w', l) == if k.index == Added then Kernel(w, l)[fd := MaskOf(k)] else Kernel(w, l) - {fd}
  {
    var chans, chans' := w.loops[l].channels, w'.loops[l].channels;
    forall other | other in chans && other != fd
      ensures Registered(w', l, other) == Registered(w, l, other) && chans'[other] == chans[other] != c
    {
    }
    assert chans'[fd] == c && (Registered(w', l, fd) <==> w'.conns[c].index == Added);
  }

  // No two descriptors of a loop have the same channel.
  lemma OwnDescriptor(w: World, c: nat, l: nat)
    requires l < |w.loops| && ChannelsInv(w, l) && c in w.conns
    ensures forall fd :: fd in w.loops[l].channels && fd != w.conns[c].fd ==> w.loops[l].channels[fd] != c
  {
  }

  lemma UpdateChanges(w: World, c: nat, k: Conn)
    requires WellFormed(w) && c in w.conns && k.loop == w.conns[c].loop && UpdateChannel(w, c, k).Ok?
    ensures
      var w' := UpdateChannel(w, c, k).w;
      && w'.conns == w.conns[c := w'.conns[c]] && w'.loops[k.loop].channels == w.loops[k.loop].channels[k.fd := c]
      && w'.conns[c].index == NextIndex(k.index, MaskOf(k)) && MaskOf(w'.conns[c]) == MaskOf(k)
  {
  }

  // The step of the machine is that of Poller.UpdateChannel.
  lemma UpdateIsPollers(w: World, c: nat, k: Conn)
    requires WellFormed(w) && c in w.conns && k.loop == w.conns[c].loop && UpdateChannel(w, c, k).Ok?
    requires k.fd == w.conns[c].fd && k.index == w.conns[c].index && ChannelsInv(w, k.loop)
    ensures
      var w' := UpdateChannel(w, c, k).w;
      && w'.conns[c].index == NextIndex(k.index, MaskOf(k))
      && w'.loops[k.loop].channels == w.loops[k.loop].channels[k.fd := c]
      && Kernel(w', k.loop) == NextKernel(Kernel(w, k.loop), k.fd, k.index, MaskOf(k))
  {
    UpdateChanges(w, c, k);
    OwnDescriptor(w, c, k.loop);
    KernelChanges(w, UpdateChannel(w, c, k).w, c, k.loop, k.fd);
  }

  // That of a removal is that of Poller.RemoveChannel.
  lemma RemoveIsPollers(w: World, c: nat)
    requires WellFormed(w) && c in w.conns && RemoveChannel(w, c).Ok? && ChannelsInv(w, w.conns[c].loop)
    ensures
      var k, w' := w.conns[c], RemoveChannel(w, c).w;
      && w'.conns[c].index == New
      && w'.loops[k.loop].channels == w.loops[k.loop].channels - {k.fd}
      && Kernel(w', k.loop) == Kernel(w, k.loop) - {k.fd}
  {
    var k, w' := w.conns[c], RemoveChannel(w, c).w;
    OwnDescriptor(w, c, k.loop);
    KernelLoses(w, w', c, k.loop, k.fd);
  }

  lemma KernelLoses(w: World, w': World, c: nat, l: nat, fd: int)
    requires l < |w.loops| && l < |w'.loops| && c in w.conns && c in w'.conns && w'.conns == w.conns[c := w'.conns[c]]
    requires w'.loops[l].channels == w.loops[l].channels - {fd}
    requires forall other :: other in w.loops[l].channels && other != fd ==> w.loops[l].channels[other] != c
    ensures Kernel(w', l) == Kernel(w, l) - {fd}
  {
    var chans, chans' := w.loops[l].channels, w'.loops[l].channels;
    forall other | other in chans && other != fd
      ensures Registered(w', l, other) == Registered(w, l, other) && chans'[other] == chans[other] != c
    {
    }
  }

  // Main result: in every reachable state the kernel watches exactly the connections that are up,
  // each on its own loop, under its own descriptor and with its own mask, and for reading at least.
  lemma KernelWatchesUp(w: World, c: nat)
    requires Inv(w, {}) && c in w.conns
    ensures
      var k := w.conns[c];
      var kernel, chans := Kernel(w, k.loop), w.loops[k.loop].channels;
      && (StageOf(w, c) == IsUpStage <==> k.fd in kernel && chans[k.fd] == c)
      && (StageOf(w, c) == IsUpStage ==> kernel[k.fd] == MaskOf(k) && kernel[k.fd].reading)
  {
    assert ConnInv(w, c, {}) && LoopInv(w, w.conns[c].loop);
  }

  // -------- the object --------

  // TcpServer's own fields, and the loops and connections that its methods reach
  class Server {
    var loops: seq<Loop>
    var conns: map<nat, Conn>
    var connections: set<nat>
    var nextConnId: nat

    function Now(): World
      reads this
    {
      World(loops, conns, connections, nextConnId)
    }

    constructor (threads: nat)
      ensures Now() == Start(threads + 1) && Inv(Now(), {})
    {
      loops := seq(threads + 1, _ => Loop(Polling, [], map[]));
      conns, connections, nextConnId := map[], {}, 1;
      new;
      StartInv(threads + 1);
    }

    // EventLoop::queueInLoop of a loop
    method QueueInLoop(l: nat, f: Functor)
      requires l < |loops|
      modifies this`loops
      ensures Now() == Queue(old(Now()), l, f)
    {
      loops := loops[l := loops[l].(pending := loops[l].pending + [f])];
    }

    // TcpServer::newConnection, on the base loop; ioLoop is what getNextLoop gives
    method AcceptConnection(ioLoop: nat, fd: int)
      requires Inv(Now(), {}) && ioLoop < |loops|
      requires forall c :: c in conns && Alive(Now(), c) ==> conns[c].fd != fd
      modifies this
      ensures NewConnection(old(Now()), ioLoop, fd) == Ok(Now()) && Inv(Now(), {})
    {
      NewConnectionSafe(Now(), ioLoop, fd);
      var c := nextConnId;
      nextConnId := nextConnId + 1;
      conns := conns[c := Conn(ioLoop, fd, Connecting, false, false, New, false, [])];
      connections := connections + {c};
      if ioLoop == 0 {
        ConnectEstablishedNow(c);
      } else {
        QueueInLoop(ioLoop, ConnectEstablished(c));
      }
    }

    // TcpConnection::connectEstablished, run at once
    method ConnectEstablishedNow(c: nat)
      requires WellFormed(Now()) && c in conns && RunConnectEstablished(Now(), c).Ok?
      modifies this
      ensures RunConnectEstablished(old(Now()), c) == Ok(Now())
    {
      var k := conns[c];
      assert k.state == Connecting;
      var o := UpdateChannel(Now(), c, k.(state := Connected, reading := true));
      loops, conns := o.w.loops, o.w.conns;
      conns := conns[c := conns[c].(fired := k.fired + [Up])];
    }

    // TcpServer::removeConnection, as the close callback of a connection of some loop
    method RemoveConnection(c: nat, onBaseLoop: bool)
      requires WellFormed(Now()) && c in conns && c in connections
      modifies this`loops, this`connections
      ensures onBaseLoop ==> RunRemoveConnection(old(Now()), c) == Ok(Now())
      ensures !onBaseLoop ==> Now() == Queue(old(Now()), 0, RemoveConnectionInLoop(c))
    {
      if onBaseLoop {
        RemoveConnectionNow(c);
      } else {
        QueueInLoop(0, RemoveConnectionInLoop(c));
      }
    }

    // TcpServer::removeConnectionInLoop
    method RemoveConnectionNow(c: nat)
      requires WellFormed(Now()) && c in conns && c in connections
      modifies this`loops, this`connections
      ensures RunRemoveConnection(old(Now()), c) == Ok(Now())
    {
      connections := connections - {c};
      QueueInLoop(conns[c].loop, ConnectDestroyed(c));
    }
  }
}
