/**
 The connector: a socket is opened, waited for, and closed or handed over.  The asserts of the code
 are steps that can fail.
 */
module Connectors {

  datatype StateE = Disconnected | Connecting | Connected

  // What connect(2) answers, by what the code makes of it
  datatype ConnectResult = InProgress | Retryable | Fatal

  datatype Channel = NoChannel | Channel(socket: nat, registered: bool)

  // Sockets are numbered in the order they are opened.
  datatype State = State(
    connect: bool,            // connect_
    state: StateE,            // state_
    channel: Channel,         // channel_, and whether the poller has it
    resets: nat,              // resetChannel functors queued
    stops: nat,               // stopInLoop functors queued
    openCount: nat,           // how many sockets have been opened
    closed: multiset<nat>,    // the sockets closed
    handed: multiset<nat>)    // the sockets given to newConnectionCallback_

  const CREATED := State(false, Disconnected, NoChannel, 0, 0, 0, multiset{}, multiset{})

  datatype Outcome = Ok(s: State) | AssertFailed

  // -------- the code --------

  function Retry(s: State, socket: nat): State {
    s.(closed := s.closed + multiset{socket}, state := Disconnected)
  }

  function Connect(s: State, r: ConnectResult): Outcome {
    var socket := s.openCount;
    var s1 := s.(openCount := s.openCount + 1);
    match r
    case InProgress =>
      // connecting
      if s1.channel != NoChannel then AssertFailed
      else Ok(s1.(state := Connecting, channel := Channel(socket, true)))
    case Retryable => Ok(Retry(s1, socket))
    case Fatal => Ok(s1.(closed := s1.closed + multiset{socket}))
  }

  function StartInLoop(s: State, r: ConnectResult): Outcome {
    if s.state != Disconnected then AssertFailed
    else if s.connect then Connect(s, r)
    else Ok(s)
  }

  // removeAndResetChannel: the channel leaves the poller now and is freed later
  function Detach(s: State): State
    requires s.channel.Channel?
  {
    s.(channel := s.channel.(registered := false), resets := s.resets + 1)
  }

  function StopInLoop(s: State): Outcome {
    if s.state == Connecting then
      if s.channel == NoChannel then AssertFailed   // channel_ is dereferenced
      else Ok(Retry(Detach(s.(state := Disconnected)), s.channel.socket))
    else Ok(s)
  }

  function HandleWrite(s: State, soError: bool, selfConnect: bool): Outcome {
    if s.state == Connecting then
      if s.channel == NoChannel then AssertFailed
      else
        var socket := s.channel.socket;
        if soError || selfConnect then Ok(Retry(Detach(s), socket))
        else
          var s1 := Detach(s).(state := Connected);
          Ok(if s.connect then s1.(handed := s1.handed + multiset{socket})
             else s1.(closed := s1.closed + multiset{socket}))
    else if s.state == Disconnected then Ok(s)
    else AssertFailed
  }

  function HandleError(s: State): Outcome {
    if s.state == Connecting then
      if s.channel == NoChannel then AssertFailed
      else Ok(Retry(Detach(s), s.channel.socket))
    else Ok(s)
  }

  // Channel::handleEvent: the write callback before the error callback, in one event
  function HandleEvent(s: State, pollOut: bool, pollErr: bool, soError: bool, selfConnect: bool): Outcome {
    var o := if pollOut then HandleWrite(s, soError, selfConnect) else Ok(s);
    if o.Ok? && pollErr then HandleError(o.s) else o
  }

  // -------- runs --------

  datatype Action =
    | Start(r: ConnectResult)
    | Restart(r: ConnectResult)
    | Stop
    | RunStop
    | RunReset
    | Event(pollOut: bool, pollErr: bool, soError: bool, selfConnect: bool)

  predicate Enabled(s: State, a: Action) {
    match a
    case RunStop => s.stops > 0
    case RunReset => s.resets > 0
    case Event(_, _, _, _) => s.channel.Channel? && s.channel.registered
    case _ => true
  }

  function Step(s: State, a: Action): Outcome
    requires Enabled(s, a)
  {
    match a
    case Start(r) => StartInLoop(s.(connect := true), r)
    case Restart(r) => StartInLoop(s.(state := Disconnected, connect := true), r)
    case Stop => Ok(s.(connect := false, stops := s.stops + 1))
    case RunStop => StopInLoop(s.(stops := s.stops - 1))
    case RunReset => Ok(s.(channel := NoChannel, resets := s.resets - 1))
    case Event(pollOut, pollErr, soError, selfConnect) => HandleEvent(s, pollOut, pollErr, soError, selfConnect)
  }

  // start is for a connector that is disconnected, restart for one that is not connecting, and both
  // for one whose old channel has been freed.
  predicate Proper(s: State, a: Action) {
    match a
    case Start(_) => s.state == Disconnected && s.resets == 0
    case Restart(_) => s.state != Connecting && s.resets == 0
    case _ => true
  }

  // A run is any list of actions; those not possible, or not proper, when their turn comes are skipped.
  function Run(s: State, actions: seq<Action>): Outcome
    decreases actions
  {
    if actions == [] then Ok(s)
    else if !Enabled(s, actions[0]) || !Proper(s, actions[0]) then Run(s, actions[1..])
    else
      var o := Step(s, actions[0]);
      if o.AssertFailed? then o else Run(o.s, actions[1..])
  }

  // How often a socket has been disposed of
  function Disposed(s: State, socket: nat): nat { s.closed[socket] + s.handed[socket] }

  // How often it should have been
  function Due(s: State, socket: nat): nat {
    if socket >= s.openCount || (s.state == Connecting && s.channel.Channel? && socket == s.channel.socket)
      then 0
      else 1
  }

  ghost predicate Shape(s: State) {
    && (s.channel.Channel? <==> s.state == Connecting || s.resets > 0)
    && (s.channel.Channel? && s.channel.registered <==> s.state == Connecting)
    && s.resets <= 1 && (s.state == Connecting ==> s.resets == 0 && s.channel.socket < s.openCount)
  }

  ghost predicate Inv(s: State) {
    Shape(s) && forall socket: nat :: Disposed(s, socket) == Due(s, socket)
  }

  lemma StepKeepsShape(s: State, a: Action)
    requires Shape(s) && Enabled(s, a) && Proper(s, a)
    ensures Step(s, a).Ok? && Shape(Step(s, a).s)
  {
  }

  lemma WriteDisposes(s: State, soError: bool, selfConnect: bool, socket: nat)
    requires Shape(s) && s.state == Connecting && Disposed(s, socket) == Due(s, socket)
    ensures
      var o := HandleWrite(s, soError, selfConnect);
      o.Ok? && o.s.state != Connecting && Disposed(o.s, socket) == Due(o.s, socket)
  {
  }

  lemma StepDisposes(s: State, a: Action, socket: nat)
    requires Shape(s) && Enabled(s, a) && Proper(s, a) && Disposed(s, socket) == Due(s, socket)
    ensures Step(s, a).Ok? && Disposed(Step(s, a).s, socket) == Due(Step(s, a).s, socket)
  {
    if a.Event? && a.pollOut {
      WriteDisposes(s, a.soError, a.selfConnect, socket);
      assert Step(s, a) == HandleWrite(s, a.soError, a.selfConnect);
    }
  }

  lemma StepKeeps(s: State, a: Action)
    requires Inv(s) && Enabled(s, a) && Proper(s, a)
    ensures Step(s, a).Ok? && Inv(Step(s, a).s)
  {
    StepKeepsShape(s, a);
    forall socket: nat ensures Disposed(Step(s, a).s, socket) == Due(Step(s, a).s, socket) {
      StepDisposes(s, a, socket);
    }
  }

  lemma {:induction false} RunKeeps(s: State, actions: seq<Action>)
    requires Inv(s)
    ensures Run(s, actions).Ok? && Inv(Run(s, actions).s)
    decreases actions
  {
    if actions != [] {
      if Enabled(s, actions[0]) && Proper(s, actions[0]) {
        StepKeeps(s, actions[0]);
        RunKeeps(Step(s, actions[0]).s, actions[1..]);
      } else {
        RunKeeps(s, actions[1..]);
      }
    }
  }

  // Main result: across any order of stops, events with POLLOUT, POLLERR or both, and delayed
  // functors, no assert fails, every socket ever opened is closed or handed over exactly once, and
  // one is still to be disposed of exactly while the connector is connecting.
  lemma DisposedOnce(actions: seq<Action>, socket: nat)
    ensures Run(CREATED, actions).Ok?
    ensures
      var s := Run(CREATED, actions).s;
      && Disposed(s, socket) <= 1
      && (Disposed(s, socket) == 1 ==> socket < s.openCount)
      && (socket < s.openCount && Disposed(s, socket) == 0
          <==> s.state == Connecting && s.channel.Channel? && socket == s.channel.socket)
  {
    RunKeeps(CREATED, actions);
  }

  // Once nothing is queued and it is not connecting, the channel is gone, as ~Connector asserts.
  lemma ChannelFreed(actions: seq<Action>)
    requires var o := Run(CREATED, actions); o.Ok? && o.s.resets == 0 && o.s.state != Connecting
    ensures Run(CREATED, actions).s.channel == NoChannel
  {
    RunKeeps(CREATED, actions);
  }

  // Exactly when start meets the asserts
  lemma StartAsserts(s: State, r: ConnectResult)
    requires Inv(s)
    ensures Step(s, Start(r)).Ok? <==> s.state == Disconnected && (r == InProgress ==> s.resets == 0)
  {
  }

  // Exactly when restart may be called: while connecting, it trips an assert or leaks the socket;
  // and while the old channel is still to be freed, it trips an assert as soon as it connects.
  lemma RestartKeeps(s: State, r: ConnectResult)
    requires Inv(s)
    ensures
      Step(s, Restart(r)).Ok? && Inv(Step(s, Restart(r)).s)
      <==> s.state != Connecting && (r == InProgress ==> s.resets == 0)
  {
    if s.state != Connecting && s.resets == 0 {
      StepKeeps(s, Restart(r));
    } else if s.state != Connecting && r != InProgress {
      forall socket: nat ensures Disposed(Step(s, Restart(r)).s, socket) == Due(Step(s, Restart(r)).s, socket) {
        assert Disposed(s, socket) == Due(s, socket);
      }
    } else if r == InProgress {
      assert Step(s, Restart(r)) == AssertFailed;
    } else {
      var s' := Step(s, Restart(r)).s;
      assert s'.state == Disconnected && s'.channel.Channel? && s'.resets == 0;
    }
  }

  // The two inputs: a second restart too soon, ...
  lemma RestartTooSoon()
    ensures
      var o := Run(CREATED, [Start(InProgress), Event(false, true, false, false)]);
      o.Ok? && Inv(o.s) && o.s.state == Disconnected && Step(o.s, Restart(InProgress)) == AssertFailed
  {
    var actions := [Start(InProgress), Event(false, true, false, false)];
    RunKeeps(CREATED, actions);
    var s := Step(CREATED, actions[0]).s;
    assert actions[1..] == [actions[1]] && actions[1..][1..] == [];
    assert Run(CREATED, actions) == Run(s, actions[1..]);
    assert Run(s, actions[1..]) == Run(Step(s, actions[1]).s, []);
  }

  // ... and a restart while connecting.
  lemma RestartLeaks()
    ensures
      var o := Step(Step(CREATED, Start(InProgress)).s, Restart(Retryable));
      o.Ok? && o.s.state == Disconnected && o.s.openCount == 2 && Disposed(o.s, 0) == 0
  {
  }

  // -------- what a connector is to its user --------

  // It tries one socket at a time, or none, or has got its connection.
  datatype Life = Idle | Trying(socket: nat) | Linked

  datatype Plan = Plan(wanted: bool, life: Life, openCount: nat, closed: multiset<nat>, handed: multiset<nat>)

  function PlanOf(s: State): Plan
    requires s.state == Connecting ==> s.channel.Channel?
  {
    Plan(s.connect,
         if s.state == Disconnected then Idle else if s.state == Connecting then Trying(s.channel.socket) else Linked,
         s.openCount, s.closed, s.handed)
  }

  function Try(p: Plan, r: ConnectResult): Plan {
    if r == InProgress then p.(wanted := true, life := Trying(p.openCount), openCount := p.openCount + 1)
    else p.(wanted := true, life := Idle, openCount := p.openCount + 1, closed := p.closed + multiset{p.openCount})
  }

  function GiveUp(p: Plan): Plan {
    if p.life.Trying? then p.(life := Idle, closed := p.closed + multiset{p.life.socket}) else p
  }

  function Succeed(p: Plan): Plan {
    if !p.life.Trying? then p
    else if p.wanted then p.(life := Linked, handed := p.handed + multiset{p.life.socket})
    else p.(life := Linked, closed := p.closed + multiset{p.life.socket})
  }

  // What each action means to the user: there are no channels, and no asserts.
  function Intend(p: Plan, a: Action): Plan {
    match a
    case Start(r) => Try(p, r)
    case Restart(r) => Try(p, r)
    case Stop => p.(wanted := false)
    case RunStop => GiveUp(p)
    case RunReset => p
    case Event(pollOut, pollErr, soError, selfConnect) =>
      if pollOut && !soError && !selfConnect then Succeed(p) else if pollOut || pollErr then GiveUp(p) else p
  }

  // Main result: the connector, with its channel that is freed later and its asserts, does just that.
  lemma StepIsIntended(s: State, a: Action)
    requires Inv(s) && Enabled(s, a) && Proper(s, a)
    ensures Step(s, a).Ok? && PlanOf(Step(s, a).s) == Intend(PlanOf(s), a)
  {
    StepKeeps(s, a);
  }

  // The socket that an action hands over, if it does: the event says that the connection is good, and
  // it is still wanted.
  function HandedBy(s: State, a: Action): multiset<nat> {
    if a.Event? && s.state == Connecting && s.channel.Channel? && a.pollOut && !a.soError && !a.selfConnect && s.connect
      then multiset{s.channel.socket}
      else multiset{}
  }

  lemma HandsOver(s: State, a: Action)
    requires Inv(s) && Enabled(s, a) && Proper(s, a)
    ensures Step(s, a).Ok? && Step(s, a).s.handed == s.handed + HandedBy(s, a)
  {
    StepIsIntended(s, a);
  }

  // The sockets that a run hands over
  function Handovers(s: State, actions: seq<Action>): multiset<nat>
    decreases actions
  {
    if actions == [] then multiset{}
    else if !Enabled(s, actions[0]) || !Proper(s, actions[0]) then Handovers(s, actions[1..])
    else
      var o := Step(s, actions[0]);
      HandedBy(s, actions[0]) + if o.Ok? then Handovers(o.s, actions[1..]) else multiset{}
  }

  lemma {:induction false} RunHandsOver(s: State, actions: seq<Action>)
    requires Inv(s)
    ensures Run(s, actions).Ok? && Run(s, actions).s.handed == s.handed + Handovers(s, actions)
    decreases actions
  {
    if actions != [] {
      var a := actions[0];
      if Enabled(s, a) && Proper(s, a) {
        HandsOver(s, a);
        StepKeeps(s, a);
        RunHandsOver(Step(s, a).s, actions[1..]);
      } else {
        RunHandsOver(s, actions[1..]);
      }
    }
  }

  // Main result, exactly: over any run, a socket is handed over if and only if the event that ended its
  // connecting found it good and still wanted; any other that is not being tried has been closed.
  lemma HandedIff(actions: seq<Action>, socket: nat)
    ensures Run(CREATED, actions).Ok?
    ensures
      var s := Run(CREATED, actions).s;
      && s.handed[socket] == Handovers(CREATED, actions)[socket]
      && (s.closed[socket] == 1 <==>
            socket < s.openCount && Handovers(CREATED, actions)[socket] == 0
            && !(s.state == Connecting && s.channel.Channel? && socket == s.channel.socket))
  {
    RunHandsOver(CREATED, actions);
    RunKeeps(CREATED, actions);
    assert Disposed(Run(CREATED, actions).s, socket) == Due(Run(CREATED, actions).s, socket);
  }

  // -------- the object --------

  class Connector {
    var connect: bool
    var state: StateE
    var channel: Channel
    var resets: nat
    var stops: nat
    ghost var openCount: nat
    ghost var closed: multiset<nat>
    ghost var handed: multiset<nat>

    ghost function Now(): State
      reads this
    {
      State(connect, state, channel, resets, stops, openCount, closed, handed)
    }

    constructor ()
      ensures Now() == CREATED
    {
      connect, state, channel, resets, stops := false, Disconnected, NoChannel, 0, 0;
      openCount, closed, handed := 0, multiset{}, multiset{};
    }

    // socket is the one just opened by the kernel.
    method StartConnector(socket: nat, r: ConnectResult)
      requires Inv(Now()) && Proper(Now(), Start(r)) && socket == openCount
      modifies this
      ensures Inv(Now()) && Ok(Now()) == Step(old(Now()), Start(r))
    {
      StepKeeps(Now(), Start(r));
      connect := true;
      assert state == Disconnected;
      ConnectSocket(socket, r);
    }

    method RestartConnector(socket: nat, r: ConnectResult)
      requires Inv(Now()) && Proper(Now(), Restart(r)) && socket == openCount
      modifies this
      ensures Inv(Now()) && Ok(Now()) == Step(old(Now()), Restart(r))
    {
      StepKeeps(Now(), Restart(r));
      state := Disconnected;
      connect := true;
      ConnectSocket(socket, r);
    }

    method ConnectSocket(socket: nat, r: ConnectResult)
      requires socket == openCount && (r == InProgress ==> channel == NoChannel)
      modifies this`openCount, this`state, this`channel, this`closed
      ensures Ok(Now()) == Connect(old(Now()), r)
    {
      openCount := openCount + 1;
      match r {
        case InProgress =>
          state := Connecting;
          assert channel == NoChannel;
          channel := Channel.Channel(socket, true);
        case Retryable => RetrySocket(socket);
        case Fatal => closed := closed + multiset{socket};
      }
    }

    method RetrySocket(socket: nat)
      modifies this`closed, this`state
      ensures Now() == Retry(old(Now()), socket)
    {
      closed := closed + multiset{socket};
      state := Disconnected;
    }

    method RemoveAndResetChannel() returns (socket: nat)
      requires channel.Channel?
      modifies this`channel, this`resets
      ensures Now() == Detach(old(Now())) && socket == old(channel).socket
    {
      socket := channel.socket;
      channel := channel.(registered := false);
      resets := resets + 1;
    }

    method StopConnector()
      requires Inv(Now())
      modifies this
      ensures Inv(Now()) && Ok(Now()) == Step(old(Now()), Stop)
    {
      StepKeeps(Now(), Stop);
      connect := false;
      stops := stops + 1;
    }

    method RunStopInLoop()
      requires Inv(Now()) && stops > 0
      modifies this
      ensures Inv(Now()) && Ok(Now()) == Step(old(Now()), RunStop)
    {
      StepKeeps(Now(), RunStop);
      stops := stops - 1;
      if state == Connecting {
        state := Disconnected;
        var socket := RemoveAndResetChannel();
        RetrySocket(socket);
      }
    }

    method ResetChannel()
      requires Inv(Now()) && resets > 0
      modifies this
      ensures Inv(Now()) && Ok(Now()) == Step(old(Now()), RunReset)
    {
      StepKeeps(Now(), RunReset);
      channel := NoChannel;
      resets := resets - 1;
    }

    method OnEvent(pollOut: bool, pollErr: bool, soError: bool, selfConnect: bool)
      requires Inv(Now()) && channel.Channel? && channel.registered
      modifies this
      ensures Inv(Now()) && Ok(Now()) == Step(old(Now()), Event(pollOut, pollErr, soError, selfConnect))
    {
      StepKeeps(Now(), Event(pollOut, pollErr, soError, selfConnect));
      if pollOut {
        OnWritable(soError, selfConnect);
      }
      if pollErr {
        OnError();
      }
    }

    method OnWritable(soError: bool, selfConnect: bool)
      requires Inv(Now()) && state == Connecting
      modifies this
      ensures Ok(Now()) == HandleWrite(old(Now()), soError, selfConnect)
    {
      var socket := RemoveAndResetChannel();
      if soError || selfConnect {
        RetrySocket(socket);
      } else {
        state := Connected;
        if connect {
          handed := handed + multiset{socket};
        } else {
          closed := closed + multiset{socket};
        }
      }
    }

    method OnError()
      requires state == Connecting ==> channel.Channel?
      modifies this
      ensures Ok(Now()) == HandleError(old(Now()))
    {
      if state == Connecting {
        var socket := RemoveAndResetChannel();
        RetrySocket(socket);
      }
    }
  }
}
