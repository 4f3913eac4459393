/** What each step of the server's machine brings about: for stages, functors, callbacks and sending. */
module TcpEffects {
  import opened ConnectionStates
  import opened TcpServer
  import Pollers
  import Bytes
  import Sending = TcpConnections

  // -------- the stage of every connection, exactly --------

  // The event of a connection that takes it down: a hang-up with nothing to read, or the end of file
  predicate EndsIt(e: Event, env: Env) { e.Io? && ((e.revHup && !e.revIn) || (e.revIn && env.read.Eof?)) }

  // What it is then: on the base loop it is removed at once.
  function Closed(w: World, c: nat): Stage
    requires c in w.conns
  {
    if w.conns[c].loop == 0 then DestroyPending else RemovePending
  }

  // What one event, or one functor, makes of the stage of connection c
  function StageByEvent(w: World, e: Event, env: Env, c: nat): Stage
    requires c in w.conns
  {
    if EndsIt(e, env) && e.c == c then Closed(w, c) else StageOf(w, c)
  }

  function StageByFunctor(w: World, f: Functor, c: nat): Stage
    requires c in w.conns
  {
    if f.c != c then StageOf(w, c)
    else
      match f
      case ConnectEstablished(_) => IsUpStage
      case ForceCloseInLoop(_) => if StageOf(w, c) == IsUpStage then Closed(w, c) else StageOf(w, c)
      case RemoveConnectionInLoop(_) => DestroyPending
      case ConnectDestroyed(_) => Gone
      case WriteComplete(_) => StageOf(w, c)
  }

  function StageAfter(w: World, a: Action, c: nat): Stage
    requires c in w.conns
  {
    match a
    case HandleNext(l, env) =>
      if l < |w.loops| && w.loops[l].phase.Handling? && w.loops[l].phase.active != [] then
        StageByEvent(w, w.loops[l].phase.active[0], env, c)
      else StageOf(w, c)
    case RunFunctor(l) =>
      if l < |w.loops| && w.loops[l].phase.Calling? && w.loops[l].phase.todo != [] then
        StageByFunctor(w, w.loops[l].phase.todo[0], c)
      else StageOf(w, c)
    case _ => StageOf(w, c)
  }

  lemma CloseMoves(w: World, c: nat)
    requires WellFormed(w) && c in w.conns && IsUp(w.conns[c]) && w.conns[c].index == Pollers.Added
    requires c in w.connections && HandleClose(w, c).Ok?
    ensures
      var w' := HandleClose(w, c).w;
      && w'.conns.Keys == w.conns.Keys && StageOf(w', c) == Closed(w, c) && !w'.conns[c].writing
      && forall d :: d in w.conns && d != c ==> StageOf(w', d) == StageOf(w, d)
  {
    CloseEffect(w, c);
  }

  lemma WriteMovesNothing(w: World, c: nat, env: Env)
    requires WellFormed(w) && c in w.conns && HandleWrite(w, c, env).Ok?
    requires w.conns[c].writing ==> IsUp(w.conns[c])
    ensures Standstill(w, HandleWrite(w, c, env).w)
  {
    WriteStandstill(w, c, env);
  }

  lemma IoMoves(w: World, e: Event, env: Env, d: nat)
    requires e.Io? && e.c in w.conns && WellFormed(w) && HandleIo(w, e, env).Ok? && d in w.conns
    requires IsUp(w.conns[e.c]) && w.conns[e.c].index == Pollers.Added && e.c in w.connections
    ensures d in HandleIo(w, e, env).w.conns && StageOf(HandleIo(w, e, env).w, d) == StageByEvent(w, e, env, d)
  {
    if EndsIt(e, env) {
      CloseMoves(w, e.c);
      WriteMovesNothing(HandleClose(w, e.c).w, e.c, env);
    } else if e.revIn {
      ReadStandstill(w, e.c, env.read);
      if e.revOut { WriteMovesNothing(HandleRead(w, e.c, env.read).w, e.c, env); }
    } else if e.revOut {
      WriteMovesNothing(w, e.c, env);
    }
  }

  lemma EventMoves(w: World, l: nat, env: Env, d: nat)
    requires Inv(w, {}) && Enabled(w, HandleNext(l, env)) && d in w.conns
    ensures
      var o := Step(w, HandleNext(l, env));
      o.Ok? && d in o.w.conns && StageOf(o.w, d) == StageAfter(w, HandleNext(l, env), d)
  {
    StepSafe(w, HandleNext(l, env));
    var e := w.loops[l].phase.active[0];
    var w1 := SetPhase(w, l, Handling(w.loops[l].phase.active[1..]));
    HandleNextForward(w, l, w1, e);
    if e.Io? {
      IoMoves(w1, e, env, d);
    } else {
      AcceptOthers(w1, e.ioLoop, e.fd);
    }
  }

  // A functor that is being run is still owed.
  lemma OwedNow(w: World, f: Functor)
    requires WellFormed(w) && f.c in w.conns
    ensures Left(w, f, {f}) >= 1
  {
  }

  lemma FunctorMovesOwn(w: World, f: Functor)
    requires f.c in w.conns && Inv(w, {f}) && Execute(w, f).Ok?
    ensures f.c in Execute(w, f).w.conns && StageOf(Execute(w, f).w, f.c) == StageByFunctor(w, f, f.c)
  {
    assert ConnInv(w, f.c, {f});
    OwedNow(w, f);
    if f.ForceCloseInLoop? && IsUp(w.conns[f.c]) {
      CloseMoves(w, f.c);
    }
  }

  lemma FunctorMoves(w: World, l: nat, d: nat)
    requires Inv(w, {}) && Enabled(w, RunFunctor(l)) && d in w.conns
    ensures
      var o := Step(w, RunFunctor(l));
      o.Ok? && d in o.w.conns && StageOf(o.w, d) == StageAfter(w, RunFunctor(l), d)
  {
    StepSafe(w, RunFunctor(l));
    RunFunctorStarts(w, l);
    var p := w.loops[l].phase;
    FunctorMovesAny(SetPhase(w, l, Calling(p.done + [p.todo[0]], p.todo[1..])), p.todo[0], d);
  }

  lemma FunctorMovesAny(w: World, f: Functor, d: nat)
    requires f.c in w.conns && Inv(w, {f}) && Execute(w, f).Ok? && d in w.conns
    ensures d in Execute(w, f).w.conns && StageOf(Execute(w, f).w, d) == StageByFunctor(w, f, d)
  {
    ExecuteForward(w, f);
    FunctorMovesOwn(w, f);
  }

  // Main result, exactly: each step leaves every connection at its stage but the one whose event is
  // the end of file or a hang-up, or whose functor is run; and these go on as far as that takes them.
  lemma StageIs(w: World, a: Action, c: nat)
    requires Inv(w, {}) && Enabled(w, a) && c in w.conns
    ensures Step(w, a).Ok? && c in Step(w, a).w.conns && StageOf(Step(w, a).w, c) == StageAfter(w, a, c)
  {
    StepSafe(w, a);
    match a
    case HandleNext(l, env) => EventMoves(w, l, env, c);
    case RunFunctor(l) => FunctorMoves(w, l, c);
    case Send(d, leftover, hasWriteComplete) => SendStandstill(w, d, leftover, hasWriteComplete);
    case Shutdown(d) => ShutdownStandstill(w, d);
    case ForceClose(d) => ShutdownStandstill(w, d);
    case _ =>
  }

  // So an event takes a connection down exactly in these two cases.
  lemma DownIff(w: World, l: nat, env: Env)
    requires Inv(w, {}) && Enabled(w, HandleNext(l, env)) && w.loops[l].phase.active[0].Io?
    ensures
      var e, o := w.loops[l].phase.active[0], Step(w, HandleNext(l, env));
      && o.Ok? && e.c in w.conns && e.c in o.w.conns && StageOf(w, e.c) == IsUpStage
      && (StageOf(o.w, e.c) != IsUpStage <==> (e.revHup && !e.revIn) || (e.revIn && env.read.Eof?))
  {
    var e := w.loops[l].phase.active[0];
    HandleNextForward(w, l, SetPhase(w, l, Handling(w.loops[l].phase.active[1..])), e);
    StageIs(w, HandleNext(l, env), e.c);
  }

  // -------- a new connection --------

  // An accepted socket becomes a connection on the loop that was chosen, which is up at once on the base
  // loop and waits for its functor on another; nobody else is touched.
  lemma AcceptAdds(w: World, l: nat, env: Env)
    requires Inv(w, {}) && Enabled(w, HandleNext(l, env)) && w.loops[l].phase.active[0].Accept?
    ensures
      var e, o, c := w.loops[l].phase.active[0], Step(w, HandleNext(l, env)), w.nextConnId;
      && o.Ok? && c !in w.conns && o.w.conns.Keys == w.conns.Keys + {c} && o.w.nextConnId == c + 1
      && o.w.conns[c].loop == e.ioLoop && o.w.conns[c].fd == e.fd
      && o.w.connections == w.connections + {c}
      && StageOf(o.w, c) == (if e.ioLoop == 0 then IsUpStage else EstablishPending)
      && forall d :: d in w.conns ==> o.w.conns[d] == w.conns[d]
  {
    StepSafe(w, HandleNext(l, env));
    var e := w.loops[l].phase.active[0];
    var w1 := SetPhase(w, l, Handling(w.loops[l].phase.active[1..]));
    HandleNextForward(w, l, w1, e);
    AcceptOthers(w1, e.ioLoop, e.fd);
    AcceptIs(w1, e.ioLoop, e.fd);
  }

  lemma AcceptIs(w: World, ioLoop: nat, fd: int)
    requires WellFormed(w) && ioLoop < |w.loops| && w.nextConnId !in w.conns && NewConnection(w, ioLoop, fd).Ok?
    ensures
      var w', c := NewConnection(w, ioLoop, fd).w, w.nextConnId;
      && w'.conns.Keys == w.conns.Keys + {c} && w'.nextConnId == c + 1 && w'.connections == w.connections + {c}
      && w'.conns[c].loop == ioLoop && w'.conns[c].fd == fd
      && StageOf(w', c) == if ioLoop == 0 then IsUpStage else EstablishPending
  {
  }

  // -------- the functors, exactly --------

  // What is queued on loop l when connection c closes, by an event, by a functor, and by any step
  function QueuedByClose(w: World, c: nat, l: nat): seq<Functor>
    requires c in w.conns
  {
    if l != 0 then [] else if w.conns[c].loop == 0 then [ConnectDestroyed(c)] else [RemoveConnectionInLoop(c)]
  }

  function QueuedByIo(w: World, e: Event, env: Env, l: nat): seq<Functor>
    requires e.Io? && e.c in w.conns
  {
    var k := w.conns[e.c];
    if EndsIt(e, env) then QueuedByClose(w, e.c, l)
    else if l != k.loop then []
    else
      (if e.revIn && env.read == Bytes(true) then [ForceCloseInLoop(e.c)] else [])
      + if e.revOut && k.writing && env.drained && env.hasWriteComplete then [WriteComplete(e.c)] else []
  }

  function QueuedByFunctor(w: World, f: Functor, l: nat): seq<Functor>
    requires f.c in w.conns
  {
    match f
    case ForceCloseInLoop(c) => if StageOf(w, c) == IsUpStage then QueuedByClose(w, c, l) else []
    case RemoveConnectionInLoop(c) => if l == w.conns[c].loop then [ConnectDestroyed(c)] else []
    case _ => []
  }

  ghost function QueuedBy(w: World, a: Action, l: nat): seq<Functor>
    requires Inv(w, {}) && Enabled(w, a)
  {
    match a
    case HandleNext(m, env) =>
      (var e := w.loops[m].phase.active[0];
       match e
       case Accept(ioLoop, _) => if ioLoop != 0 && l == ioLoop then [ConnectEstablished(w.nextConnId)] else []
       case Io(c, _, _, _, _) => if c in w.conns then QueuedByIo(w, e, env, l) else [])
    case RunFunctor(m) =>
      (var f := w.loops[m].phase.todo[0];
       if f.c in w.conns then QueuedByFunctor(w, f, l) else [])
    case Send(c, leftover, hasWriteComplete) =>
      if l == w.conns[c].loop && w.conns[c].state == Connected && !leftover && hasWriteComplete then [WriteComplete(c)]
      else []
    case ForceClose(c) => if l == w.conns[c].loop && StageOf(w, c) == IsUpStage then [ForceCloseInLoop(c)] else []
    case _ => []
  }

  // The functors of loop l that are still to be run have more behind them.
  predicate Grows(w: World, w': World, l: nat, more: seq<Functor>)
    requires l < |w.loops|
  {
    |w'.loops| == |w.loops| && w'.loops[l].Todo() == w.loops[l].Todo() + more
  }

  lemma GrowsTwice(w: World, w1: World, w2: World, l: nat, a: seq<Functor>, b: seq<Functor>)
    requires l < |w.loops| && Grows(w, w1, l, a) && Grows(w1, w2, l, b)
    ensures Grows(w, w2, l, a + b)
  {
    assert (w.loops[l].Todo() + a) + b == w.loops[l].Todo() + (a + b);
  }

  lemma SameGrows(w: World, w': World, l: nat)
    requires l < |w.loops| && w'.loops == w.loops
    ensures Grows(w, w', l, [])
  {
    assert w.loops[l].Todo() + [] == w.loops[l].Todo();
  }

  lemma QueueGrows(w: World, m: nat, f: Functor, l: nat)
    requires m < |w.loops| && l < |w.loops|
    ensures Grows(w, Queue(w, m, f), l, if l == m then [f] else [])
  {
    PushLoop(w.loops[m], f);
    assert w.loops[l].Todo() + [] == w.loops[l].Todo();
  }

  lemma UpdateGrows(w: World, c: nat, k: Conn, l: nat)
    requires WellFormed(w) && c in w.conns && k.loop == w.conns[c].loop && UpdateChannel(w, c, k).Ok? && l < |w.loops|
    ensures Grows(w, UpdateChannel(w, c, k).w, l, [])
  {
    assert w.loops[l].Todo() + [] == w.loops[l].Todo();
  }

  lemma RemoveGrows(w: World, c: nat, l: nat)
    requires WellFormed(w) && c in w.conns && RemoveChannel(w, c).Ok? && l < |w.loops|
    ensures Grows(w, RemoveChannel(w, c).w, l, [])
  {
    assert w.loops[l].Todo() + [] == w.loops[l].Todo();
  }

  lemma CloseGrows(w: World, c: nat, l: nat)
    requires WellFormed(w) && c in w.conns && HandleClose(w, c).Ok? && l < |w.loops|
    ensures Grows(w, HandleClose(w, c).w, l, QueuedByClose(w, c, l))
  {
    var k := w.conns[c];
    var w1 := UpdateChannel(w, c, k.(state := Disconnected, reading := false, writing := false)).w;
    var w2 := SetConn(w1, c, w1.conns[c].(fired := k.fired + [Down]));
    UpdateGrows(w, c, k.(state := Disconnected, reading := false, writing := false), l);
    if k.loop == 0 {
      QueueGrows(w2.(connections := w2.connections - {c}), 0, ConnectDestroyed(c), l);
    } else {
      QueueGrows(w2, 0, RemoveConnectionInLoop(c), l);
    }
  }

  lemma ForceCloseGrows(w: World, c: nat, l: nat)
    requires WellFormed(w) && c in w.conns && l < |w.loops|
    ensures Grows(w, DoForceClose(w, c), l,
                  if l == w.conns[c].loop && StageOf(w, c) == IsUpStage then [ForceCloseInLoop(c)] else [])
  {
    var k := w.conns[c];
    if IsUp(k) {
      QueueGrows(SetConn(w, c, k.(state := Disconnecting)), k.loop, ForceCloseInLoop(c), l);
    } else {
      SameGrows(w, w, l);
    }
  }

  lemma SendGrows(w: World, c: nat, leftover: bool, hasWriteComplete: bool, l: nat)
    requires WellFormed(w) && c in w.conns && DoSend(w, c, leftover, hasWriteComplete).Ok? && l < |w.loops|
    ensures
      Grows(w, DoSend(w, c, leftover, hasWriteComplete).w, l,
            if l == w.conns[c].loop && w.conns[c].state == Connected && !leftover && hasWriteComplete
              then [WriteComplete(c)]
              else [])
  {
    var k := w.conns[c];
    SameGrows(w, w, l);
    if k.state == Connected && leftover && !k.writing {
      UpdateGrows(w, c, k.(writing := true), l);
    } else if k.state == Connected && !leftover && hasWriteComplete {
      QueueGrows(w, k.loop, WriteComplete(c), l);
    }
  }

  lemma WriteGrows(w: World, c: nat, env: Env, l: nat)
    requires WellFormed(w) && c in w.conns && HandleWrite(w, c, env).Ok? && l < |w.loops|
    ensures
      Grows(w, HandleWrite(w, c, env).w, l,
            if l == w.conns[c].loop && w.conns[c].writing && env.drained && env.hasWriteComplete then [WriteComplete(c)]
            else [])
  {
    var k := w.conns[c];
    SameGrows(w, w, l);
    if k.writing && env.drained {
      UpdateGrows(w, c, k.(writing := false), l);
      if env.hasWriteComplete {
        QueueGrows(UpdateChannel(w, c, k.(writing := false)).w, k.loop, WriteComplete(c), l);
      }
    }
  }

  lemma ReadGrows(w: World, c: nat, r: ReadResult, l: nat)
    requires WellFormed(w) && c in w.conns && !r.Eof? && HandleRead(w, c, r).Ok? && l < |w.loops| && IsUp(w.conns[c])
    ensures Grows(w, HandleRead(w, c, r).w, l,
                  if l == w.conns[c].loop && r == Bytes(true) then [ForceCloseInLoop(c)] else [])
    ensures HandleRead(w, c, r).w.conns[c].writing == w.conns[c].writing
  {
    SameGrows(w, w, l);
    ForceCloseGrows(w, c, l);
  }

  lemma IoGrows(w: World, e: Event, env: Env, l: nat)
    requires e.Io? && e.c in w.conns && WellFormed(w) && HandleIo(w, e, env).Ok? && l < |w.loops|
    requires IsUp(w.conns[e.c]) && w.conns[e.c].index == Pollers.Added && e.c in w.connections
    ensures Grows(w, HandleIo(w, e, env).w, l, QueuedByIo(w, e, env, l))
  {
    if EndsIt(e, env) {
      CloseGrows(w, e.c, l);
      CloseMoves(w, e.c);
    } else if e.revIn {
      var w1 := HandleRead(w, e.c, env.read).w;
      ReadGrows(w, e.c, env.read, l);
      ThenWriteGrows(w, w1, e, env, l,
                     if l == w.conns[e.c].loop && env.read == Bytes(true) then [ForceCloseInLoop(e.c)] else []);
    } else {
      SameGrows(w, w, l);
      ThenWriteGrows(w, w, e, env, l, []);
    }
  }

  lemma ThenWriteGrows(w: World, w1: World, e: Event, env: Env, l: nat, more: seq<Functor>)
    requires WellFormed(w) && WellFormed(w1) && e.Io? && e.c in w.conns && e.c in w1.conns && l < |w.loops|
    requires w1.conns[e.c].loop == w.conns[e.c].loop && w1.conns[e.c].writing == w.conns[e.c].writing
    requires Grows(w, w1, l, more) && (e.revOut ==> HandleWrite(w1, e.c, env).Ok?)
    ensures
      var k := w.conns[e.c];
      Grows(w, if e.revOut then HandleWrite(w1, e.c, env).w else w1, l,
            more + if l == k.loop && e.revOut && k.writing && env.drained && env.hasWriteComplete
                     then [WriteComplete(e.c)]
                     else [])
  {
    if e.revOut {
      var k := w.conns[e.c];
      WriteGrows(w1, e.c, env, l);
      GrowsTwice(w, w1, HandleWrite(w1, e.c, env).w, l, more,
                 if l == k.loop && k.writing && env.drained && env.hasWriteComplete then [WriteComplete(e.c)] else []);
    } else {
      assert more + [] == more;
    }
  }

  lemma EventGrows(w: World, m: nat, env: Env, l: nat)
    requires Inv(w, {}) && Enabled(w, HandleNext(m, env)) && l < |w.loops|
    ensures Step(w, HandleNext(m, env)).Ok?
    ensures Grows(w, Step(w, HandleNext(m, env)).w, l, QueuedBy(w, HandleNext(m, env), l))
  {
    StepSafe(w, HandleNext(m, env));
    var e := w.loops[m].phase.active[0];
    var w1 := SetPhase(w, m, Handling(w.loops[m].phase.active[1..]));
    HandleNextForward(w, m, w1, e);
    assert w1.loops[l].Todo() == w.loops[l].Todo();
    if e.Io? {
      IoGrows(w1, e, env, l);
    } else {
      AcceptGrows(w1, e.ioLoop, e.fd, l);
    }
  }

  lemma AcceptGrows(w: World, ioLoop: nat, fd: int, l: nat)
    requires WellFormed(w) && ioLoop < |w.loops| && w.nextConnId !in w.conns && NewConnection(w, ioLoop, fd).Ok?
    requires l < |w.loops|
    ensures Grows(w, NewConnection(w, ioLoop, fd).w, l,
                  if ioLoop != 0 && l == ioLoop then [ConnectEstablished(w.nextConnId)] else [])
  {
    var c, w1 := w.nextConnId, WithNew(w, ioLoop, fd);
    SameGrows(w, w1, l);
    if ioLoop == 0 {
      UpdateGrows(w1, c, w1.conns[c].(state := Connected, reading := true), l);
    } else {
      QueueGrows(w1, ioLoop, ConnectEstablished(c), l);
    }
  }

  lemma FunctorGrows(w: World, f: Functor, l: nat)
    requires f.c in w.conns && Inv(w, {f}) && Execute(w, f).Ok? && l < |w.loops|
    ensures Grows(w, Execute(w, f).w, l, QueuedByFunctor(w, f, l))
  {
    assert ConnInv(w, f.c, {f});
    OwedNow(w, f);
    SameGrows(w, w, l);
    var k := w.conns[f.c];
    match f
    case ConnectEstablished(c) => UpdateGrows(w, c, k.(state := Connected, reading := true), l);
    case WriteComplete(c) =>
    case ForceCloseInLoop(c) => if IsUp(k) { CloseGrows(w, c, l); }
    case RemoveConnectionInLoop(c) =>
      QueueGrows(w.(connections := w.connections - {c}), k.loop, ConnectDestroyed(c), l);
    case ConnectDestroyed(c) => RemoveGrows(w, c, l);
  }

  lemma RunGrows(w: World, m: nat, l: nat)
    requires Inv(w, {}) && Enabled(w, RunFunctor(m)) && l < |w.loops|
    ensures Step(w, RunFunctor(m)).Ok?
    ensures
      var w', todo := Step(w, RunFunctor(m)).w, w.loops[l].Todo();
      |w'.loops| == |w.loops|
      && w'.loops[l].Todo() == (if l == m then todo[1..] else todo) + QueuedBy(w, RunFunctor(m), l)
  {
    StepSafe(w, RunFunctor(m));
    RunFunctorStarts(w, m);
    var p := w.loops[m].phase;
    PopTodo(w, m, l);
    FunctorGrows(SetPhase(w, m, Calling(p.done + [p.todo[0]], p.todo[1..])), p.todo[0], l);
  }

  lemma PopTodo(w: World, m: nat, l: nat)
    requires m < |w.loops| && l < |w.loops| && w.loops[m].phase.Calling? && w.loops[m].phase.todo != []
    ensures
      var p, todo := w.loops[m].phase, w.loops[l].Todo();
      SetPhase(w, m, Calling(p.done + [p.todo[0]], p.todo[1..])).loops[l].Todo() == if l == m then todo[1..] else todo
  {
  }

  // Main result, exactly: on every loop the functors are run in the order in which they were queued, the
  // one that is run goes, and each step puts these behind them, and no others.
  lemma TodoIs(w: World, a: Action, l: nat)
    requires Inv(w, {}) && Enabled(w, a) && l < |w.loops|
    ensures
      var o, todo := Step(w, a), w.loops[l].Todo();
      && o.Ok? && |o.w.loops| == |w.loops|
      && o.w.loops[l].Todo() == (if a == RunFunctor(l) then todo[1..] else todo) + QueuedBy(w, a, l)
  {
    StepSafe(w, a);
    assert w.loops[l].Todo() + [] == w.loops[l].Todo();
    match a
    case HandleNext(m, env) => EventGrows(w, m, env, l);
    case RunFunctor(m) => RunGrows(w, m, l);
    case Send(c, leftover, hasWriteComplete) => SendGrows(w, c, leftover, hasWriteComplete, l);
    case ForceClose(c) => ForceCloseGrows(w, c, l);
    case _ =>
  }

  // -------- a forced close comes --------

  // Connection c is to be closed, or has been.
  predicate Doomed(w: World, c: nat) {
    && c in w.conns && w.conns[c].loop < |w.loops|
    && (ForceCloseInLoop(c) in w.loops[w.conns[c].loop].Todo() || Rank(StageOf(w, c)) > Rank(IsUpStage))
  }

  // A forced close of a connection that is up dooms it, ...
  lemma ForceDooms(w: World, c: nat)
    requires Inv(w, {}) && Enabled(w, ForceClose(c)) && StageOf(w, c) == IsUpStage
    ensures Step(w, ForceClose(c)).Ok? && Doomed(Step(w, ForceClose(c)).w, c)
    ensures Step(w, ForceClose(c)).w.conns[c].loop == w.conns[c].loop
  {
    var l := w.conns[c].loop;
    TodoIs(w, ForceClose(c), l);
    StepSafe(w, ForceClose(c));
    assert ForceCloseInLoop(c) in [ForceCloseInLoop(c)];
  }

  // ... and it stays doomed until it is down.
  lemma DoomStays(w: World, a: Action, c: nat)
    requires Inv(w, {}) && Enabled(w, a) && Doomed(w, c) && Rank(StageOf(w, c)) >= Rank(IsUpStage)
    ensures Step(w, a).Ok? && Doomed(Step(w, a).w, c) && Rank(StageOf(Step(w, a).w, c)) >= Rank(IsUpStage)
  {
    var l, f := w.conns[c].loop, ForceCloseInLoop(c);
    StepForward(w, a);
    StepSafe(w, a);
    StageIs(w, a, c);
    TodoIs(w, a, l);
    var todo := w.loops[l].Todo();
    if f in todo && a == RunFunctor(l) {
      assert todo == [todo[0]] + todo[1..];
    }
  }

  // Main result: over any run, a connection that has been forced to close is down once the loops have
  // nothing more to run, and gone.
  lemma {:induction false} ForcedCloseComes(w: World, schedule: seq<Action>, c: nat)
    requires Inv(w, {}) && Doomed(w, c) && Rank(StageOf(w, c)) >= Rank(IsUpStage)
    ensures Run(w, schedule).Ok? && Inv(Run(w, schedule).w, {}) && Doomed(Run(w, schedule).w, c)
    ensures
      var w' := Run(w, schedule).w;
      (forall l :: 0 <= l < |w'.loops| ==> w'.loops[l].phase.Polling? && w'.loops[l].pending == []) ==>
        StageOf(w', c) == Gone && !Alive(w', c)
    decreases schedule
  {
    if schedule == [] {
      if forall l :: 0 <= l < |w.loops| ==> w.loops[l].phase.Polling? && w.loops[l].pending == [] {
        NothingHangs(w, c);
      }
    } else if Enabled(w, schedule[0]) {
      DoomStays(w, schedule[0], c);
      StepSafe(w, schedule[0]);
      ForcedCloseComes(Step(w, schedule[0]).w, schedule[1..], c);
    } else {
      ForcedCloseComes(w, schedule[1..], c);
    }
  }

  // -------- the callbacks of the channel --------

  // What each callback of a connection's channel does
  function Answer(w: World, c: nat, b: Pollers.Callback, env: Env): (o: Outcome)
    requires WellFormed(w) && c in w.conns
    ensures o.Ok? ==> SameShape(w, o.w)
  {
    match b
    case CloseCallback => HandleClose(w, c)
    case ReadCallback => HandleRead(w, c, env.read)
    case WriteCallback => HandleWrite(w, c, env)
    case ErrorCallback => Ok(w)
  }

  function Perform(w: World, c: nat, bs: seq<Pollers.Callback>, env: Env): (o: Outcome)
    requires WellFormed(w) && c in w.conns
    ensures o.Ok? ==> SameShape(w, o.w)
    decreases bs
  {
    if bs == [] then Ok(w)
    else
      var w1 :- Answer(w, c, bs[0], env);
      Perform(w1, c, bs[1..], env)
  }

  lemma {:induction false} PerformConcat(w: World, c: nat, a: seq<Pollers.Callback>, b: seq<Pollers.Callback>, env: Env)
    requires WellFormed(w) && c in w.conns
    ensures
      Perform(w, c, a + b, env) ==
        var o := Perform(w, c, a, env);
        if o.Ok? then Perform(o.w, c, b, env) else o
    decreases a
  {
    if a == [] {
      assert a + b == b;
    } else {
      assert (a + b)[0] == a[0] && (a + b)[1..] == a[1..] + b;
      var o := Answer(w, c, a[0], env);
      if o.Ok? { PerformConcat(o.w, c, a[1..], b, env); }
    }
  }

  lemma PerformOne(w: World, c: nat, b: Pollers.Callback, asked: bool, env: Env)
    requires WellFormed(w) && c in w.conns
    ensures Perform(w, c, if asked then [b] else [], env) == if asked then Answer(w, c, b, env) else Ok(w)
  {
    var bs: seq<Pollers.Callback> := [b];
    assert bs[1..] == [];
  }

  // The events of a connection, as epoll reports them for its channel
  function ReventsOf(e: Event): Pollers.Revents
    requires e.Io?
  {
    Pollers.Revents(e.revIn, false, false, e.revOut, e.revHup, e.revErr)
  }

  // Main result: the machine handles an event by the callbacks that the channel makes for it, in order.
  lemma IoIsDispatch(w: World, e: Event, env: Env, channel: Pollers.Channel)
    requires e.Io? && e.c in w.conns && WellFormed(w) && channel.revents == ReventsOf(e)
    ensures HandleIo(w, e, env) == Perform(w, e.c, channel.Dispatch(), env)
  {
    var close: seq<Pollers.Callback> := if e.revHup && !e.revIn then [Pollers.CloseCallback] else [];
    var read: seq<Pollers.Callback> := if e.revIn then [Pollers.ReadCallback] else [];
    var write: seq<Pollers.Callback> := if e.revOut then [Pollers.WriteCallback] else [];
    var error: seq<Pollers.Callback> := if e.revErr then [Pollers.ErrorCallback] else [];
    assert channel.Dispatch() == close + read + write + error;
    PerformConcat(w, e.c, close + read + write, error, env);
    PerformConcat(w, e.c, close + read, write, env);
    PerformConcat(w, e.c, close, read, env);
    PerformOne(w, e.c, Pollers.CloseCallback, e.revHup && !e.revIn, env);
    var o1 := Perform(w, e.c, close, env);
    if o1.Ok? {
      PerformOne(o1.w, e.c, Pollers.ReadCallback, e.revIn, env);
      var o2 := Perform(o1.w, e.c, read, env);
      if o2.Ok? {
        PerformOne(o2.w, e.c, Pollers.WriteCallback, e.revOut, env);
        var o3 := Perform(o2.w, e.c, write, env);
        if o3.Ok? { PerformOne(o3.w, e.c, Pollers.ErrorCallback, e.revErr, env); }
      }
    }
  }

  // -------- the sending side --------

  // A connection of the machine, as its sending side has it
  predicate Matches(k: Conn, o: Sending.Out) { k.state == o.state && k.writing == o.writing }

  // Main result: whatever is sent, taken, asked for or closed, state and interest in writing of the machine
  // stay those of the sending side; what the machine leaves open, whether bytes are left over and whether
  // the buffer is drained, is what comes out there.
  lemma SendMatches(
      w: World, c: nat, o: Sending.Out, data: seq<Bytes.Byte>, r: Sending.WriteResult, hasWriteComplete: bool)
    requires WellFormed(w) && c in w.conns && Matches(w.conns[c], o) && Sending.OutInv(o) && Sending.Possible(r, |data|)
    requires DoSend(w, c, Sending.Send(o, data, r).buffer != o.buffer, hasWriteComplete).Ok?
    ensures
      var o' := Sending.Send(o, data, r);
      Matches(DoSend(w, c, o'.buffer != o.buffer, hasWriteComplete).w.conns[c], o')
  {
  }

  lemma WriteMatches(w: World, c: nat, o: Sending.Out, r: Sending.WriteResult, env: Env)
    requires WellFormed(w) && c in w.conns && Matches(w.conns[c], o)
    requires Sending.OutInv(o) && Sending.Possible(r, |o.buffer|)
    requires env.drained == (Sending.HandleWrite(o, r).buffer == []) && HandleWrite(w, c, env).Ok?
    ensures Matches(HandleWrite(w, c, env).w.conns[c], Sending.HandleWrite(o, r))
  {
  }

  lemma AskedMatches(w: World, c: nat, o: Sending.Out)
    requires WellFormed(w) && c in w.conns && Matches(w.conns[c], o)
    ensures Matches(DoShutdown(w, c).conns[c], Sending.Shutdown(o))
    ensures Matches(DoForceClose(w, c).conns[c], Sending.ForceClose(o))
  {
  }

  lemma CloseMatches(w: World, c: nat, o: Sending.Out)
    requires WellFormed(w) && c in w.conns && Matches(w.conns[c], o) && HandleClose(w, c).Ok?
    ensures Matches(HandleClose(w, c).w.conns[c], Sending.HandleClose(o))
  {
  }

  lemma EstablishMatches(w: World, c: nat, o: Sending.Out)
    requires WellFormed(w) && c in w.conns && Matches(w.conns[c], o) && RunConnectEstablished(w, c).Ok?
    ensures Matches(RunConnectEstablished(w, c).w.conns[c], Sending.Step(o, Sending.DoEstablish))
  {
  }

  // -------- the turns of a loop --------

  function Active(p: Loop): seq<Event> { if p.phase.Handling? then p.phase.active else [] }

  function Batch(p: Loop): seq<Functor> { if p.phase.Calling? then p.phase.todo else [] }

  function KindOf(p: Loop): nat { match p.phase case Polling => 0 case Handling(_) => 1 case Calling(_, _) => 2 }

  predicate SameTurn(w: World, w': World, l: nat)
    requires l < |w.loops|
  {
    && |w'.loops| == |w.loops| && Active(w'.loops[l]) == Active(w.loops[l])
    && Batch(w'.loops[l]) == Batch(w.loops[l]) && KindOf(w'.loops[l]) == KindOf(w.loops[l])
  }

  lemma CloseTurns(w: World, c: nat, l: nat)
    requires WellFormed(w) && c in w.conns && HandleClose(w, c).Ok? && l < |w.loops|
    ensures SameTurn(w, HandleClose(w, c).w, l)
  {
    var k := w.conns[c].(state := Disconnected, reading := false, writing := false);
    UpdateTurns(w, c, k, l);
    AfterCloseTurns(w, UpdateChannel(w, c, k).w, c, l);
  }

  lemma AfterCloseTurns(w: World, w1: World, c: nat, l: nat)
    requires c in w.conns && c in w1.conns && 0 < |w1.loops| && l < |w.loops| && SameTurn(w, w1, l)
    ensures
      var w2 := SetConn(w1, c, w1.conns[c].(fired := w.conns[c].fired + [Down]));
      && SameTurn(w, Queue(w2.(connections := w2.connections - {c}), 0, ConnectDestroyed(c)), l)
      && SameTurn(w, Queue(w2, 0, RemoveConnectionInLoop(c)), l)
  {
  }

  lemma ReadTurns(w: World, c: nat, r: ReadResult, l: nat)
    requires WellFormed(w) && c in w.conns && HandleRead(w, c, r).Ok? && l < |w.loops|
    ensures SameTurn(w, HandleRead(w, c, r).w, l)
  {
    if r.Eof? { CloseTurns(w, c, l); }
  }

  lemma WriteTurns(w: World, c: nat, env: Env, l: nat)
    requires WellFormed(w) && c in w.conns && HandleWrite(w, c, env).Ok? && l < |w.loops|
    ensures SameTurn(w, HandleWrite(w, c, env).w, l)
  {
  }

  lemma IoTurns(w: World, e: Event, env: Env, l: nat)
    requires e.Io? && e.c in w.conns && WellFormed(w) && HandleIo(w, e, env).Ok? && l < |w.loops|
    ensures SameTurn(w, HandleIo(w, e, env).w, l)
  {
    var o1 := if e.revHup && !e.revIn then HandleClose(w, e.c) else Ok(w);
    if e.revHup && !e.revIn { CloseTurns(w, e.c, l); }
    if e.revIn { ReadTurns(o1.w, e.c, env.read, l); }
    var o2 := if e.revIn then HandleRead(o1.w, e.c, env.read) else o1;
    if e.revOut { WriteTurns(o2.w, e.c, env, l); }
  }

  lemma AcceptTurns(w: World, ioLoop: nat, fd: int, l: nat)
    requires WellFormed(w) && ioLoop < |w.loops| && NewConnection(w, ioLoop, fd).Ok? && l < |w.loops|
    ensures SameTurn(w, NewConnection(w, ioLoop, fd).w, l)
  {
  }

  lemma ExecuteTurns(w: World, f: Functor, l: nat)
    requires WellFormed(w) && f.c in w.conns && Execute(w, f).Ok? && l < |w.loops|
    ensures SameTurn(w, Execute(w, f).w, l)
  {
    match f
    case ConnectEstablished(c) => EstablishTurns(w, c, l);
    case ForceCloseInLoop(c) => if IsUp(w.conns[c]) { CloseTurns(w, c, l); }
    case ConnectDestroyed(c) => DestroyTurns(w, c, l);
    case _ =>
  }

  lemma EstablishTurns(w: World, c: nat, l: nat)
    requires WellFormed(w) && c in w.conns && RunConnectEstablished(w, c).Ok? && l < |w.loops|
    ensures SameTurn(w, RunConnectEstablished(w, c).w, l)
  {
  }

  lemma DestroyTurns(w: World, c: nat, l: nat)
    requires WellFormed(w) && c in w.conns && RunConnectDestroyed(w, c).Ok? && l < |w.loops|
    ensures SameTurn(w, RunConnectDestroyed(w, c).w, l)
  {
    var k := w.conns[c];
    if k.state == Connected {
      var k' := k.(state := Disconnected, reading := false, writing := false);
      UpdateTurns(w, c, k', l);
      var w1 := UpdateChannel(w, c, k').w;
      RemoveTurns(SetConn(w1, c, w1.conns[c].(fired := k.fired + [Down])), c, l);
    } else {
      RemoveTurns(w, c, l);
    }
  }

  lemma RemoveTurns(w: World, c: nat, l: nat)
    requires WellFormed(w) && c in w.conns && RemoveChannel(w, c).Ok? && l < |w.loops|
    ensures SameTurn(w, RemoveChannel(w, c).w, l)
  {
  }

  lemma UpdateTurns(w: World, c: nat, k: Conn, l: nat)
    requires WellFormed(w) && c in w.conns && k.loop == w.conns[c].loop && UpdateChannel(w, c, k).Ok? && l < |w.loops|
    ensures SameTurn(w, UpdateChannel(w, c, k).w, l)
  {
  }

  // Main result, exactly: a loop handles what its poll has reported, event by event, and then runs what was
  // queued by then, functor by functor, before it polls again; nobody else makes it skip or repeat any.
  lemma TurnIs(w: World, a: Action, l: nat)
    requires Inv(w, {}) && Enabled(w, a) && l < |w.loops|
    ensures
      var o, p := Step(w, a), w.loops[l];
      && o.Ok? && |o.w.loops| == |w.loops|
      && Active(o.w.loops[l]) ==
           (if a.Poll? && a.l == l then a.ready else if a.HandleNext? && a.l == l then Active(p)[1..] else Active(p))
      && Batch(o.w.loops[l]) ==
           (if a == Swap(l) then p.pending else if a == RunFunctor(l) then Batch(p)[1..] else Batch(p))
      && KindOf(o.w.loops[l]) ==
           (if a.Poll? && a.l == l then 1 else if a == Swap(l) then 2 else if a == EndBatch(l) then 0 else KindOf(p))
  {
    StepSafe(w, a);
    match a
    case HandleNext(m, env) => EventTurns(w, m, env, l);
    case RunFunctor(m) => FunctorTurns(w, m, l);
    case _ =>
  }

  lemma EventTurns(w: World, m: nat, env: Env, l: nat)
    requires Inv(w, {}) && Enabled(w, HandleNext(m, env)) && Step(w, HandleNext(m, env)).Ok? && l < |w.loops|
    ensures
      var w1 := SetPhase(w, m, Handling(w.loops[m].phase.active[1..]));
      SameTurn(w1, Step(w, HandleNext(m, env)).w, l)
  {
    var e := w.loops[m].phase.active[0];
    var w1 := SetPhase(w, m, Handling(w.loops[m].phase.active[1..]));
    HandleNextForward(w, m, w1, e);
    if e.Io? { IoTurns(w1, e, env, l); } else { AcceptTurns(w1, e.ioLoop, e.fd, l); }
  }

  lemma FunctorTurns(w: World, m: nat, l: nat)
    requires Inv(w, {}) && Enabled(w, RunFunctor(m)) && Step(w, RunFunctor(m)).Ok? && l < |w.loops|
    ensures
      var p := w.loops[m].phase;
      SameTurn(SetPhase(w, m, Calling(p.done + [p.todo[0]], p.todo[1..])), Step(w, RunFunctor(m)).w, l)
  {
    var p := w.loops[m].phase;
    RunFunctorStarts(w, m);
    ExecuteTurns(SetPhase(w, m, Calling(p.done + [p.todo[0]], p.todo[1..])), p.todo[0], l);
  }
}
