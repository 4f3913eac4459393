/**
 Functors queued on an event loop by its own thread and by others, the eventfd that wakes the loop
 up, and the batches in which the loop runs what was queued.
 */
module EventLoops {

  // signals: queueInLoop calls wakeup after pushing this functor
  datatype Functor = Functor(id: nat, signals: bool)

  datatype Phase =
    | NotLooping
    | Polling                           // about to block, or blocked, in poll
    | Handling(wakeupActive: bool)      // handling events, that of wakeupFd_ among them or not
    | Calling(todo: seq<Functor>)       // running the swapped batch; todo is the rest of it

  datatype State = State(
    phase: Phase,
    pending: seq<Functor>,    // pendingFunctors_
    counter: nat,             // the count in the eventfd
    foreign: set<nat>,        // other threads that are between their push and their wakeup
    owing: bool,              // the loop's own thread is between its push and its wakeup
    quit: bool,
    queued: seq<Functor>,     // every functor ever queued, in order
    executed: seq<Functor>)   // every functor ever started, in order

  const CREATED := State(NotLooping, [], 0, {}, false, false, [], [])

  datatype Action =
    | ForeignPush(thread: nat, id: nat)
    | ForeignWakeup(thread: nat)
    | ForeignQuit(thread: nat)
    | LoopPush(id: nat)                // queueInLoop on the loop's own thread
    | LoopWakeup
    | LoopQuit
    | StartLoop
    | PollReturns(wakeupReported: bool)
    | ReadEventfd                      // EventLoop::handleRead
    | Swap
    | RunFunctor
    | NextIteration

  predicate Enabled(s: State, a: Action) {
    match a
    case ForeignPush(t, _) => t !in s.foreign
    case ForeignWakeup(t) => t in s.foreign
    case ForeignQuit(t) => t !in s.foreign
    case LoopPush(_) => !s.phase.Polling? && !s.owing
    case LoopWakeup => s.owing
    case LoopQuit => !s.phase.Polling? && !s.owing
    case StartLoop => s.phase.NotLooping? && !s.owing
    case PollReturns(wakeupReported) => s.phase.Polling? && (wakeupReported ==> s.counter > 0)
    case ReadEventfd => s.phase == Handling(true)
    case Swap => s.phase == Handling(false)
    case RunFunctor => s.phase.Calling? && s.phase.todo != [] && !s.owing
    case NextIteration => s.phase == Calling([]) && !s.owing
  }

  function Push(s: State, f: Functor): State {
    s.(pending := s.pending + [f], queued := s.queued + [f])
  }

  function Step(s: State, a: Action): State
    requires Enabled(s, a)
  {
    match a
    case ForeignPush(t, id) => Push(s, Functor(id, true)).(foreign := s.foreign + {t})
    case ForeignWakeup(t) => s.(foreign := s.foreign - {t}, counter := s.counter + 1)
    case ForeignQuit(t) => s.(quit := true, foreign := s.foreign + {t})
    // callingPendingFunctors_ is set from just before the swap to the end of the batch
    case LoopPush(id) => Push(s, Functor(id, s.phase.Calling?)).(owing := s.phase.Calling?)
    case LoopWakeup => s.(owing := false, counter := s.counter + 1)
    case LoopQuit => s.(quit := true)
    case StartLoop => s.(phase := Polling, quit := false)
    case PollReturns(wakeupReported) => s.(phase := Handling(wakeupReported))
    case ReadEventfd => s.(phase := Handling(false), counter := 0)
    case Swap => s.(phase := Calling(s.pending), pending := [])
    case RunFunctor => s.(phase := Calling(s.phase.todo[1..]), executed := s.executed + [s.phase.todo[0]])
    case NextIteration => s.(phase := if s.quit then NotLooping else Polling)
  }

  // A schedule is any list of actions; those not possible when their turn comes are skipped.
  function Next(s: State, a: Action): State {
    if Enabled(s, a) then Step(s, a) else s
  }

  function Run(s: State, schedule: seq<Action>): State
    decreases schedule
  {
    if schedule == [] then s else Run(Next(s, schedule[0]), schedule[1..])
  }

  // -------- no lost wakeup --------

  // Something makes, or is about to make, the poll return at once.
  predicate WillWake(s: State) { s.counter > 0 || s.foreign != {} }

  // The property: the loop does not block on work that nobody will wake it up for.
  predicate Awake(s: State) { s.phase.Polling? && s.pending != [] ==> WillWake(s) }

  predicate SomeSignals(fs: seq<Functor>) { exists f :: f in fs && f.signals }

  // Holds once loop() has been entered in good order, whatever is queued while it runs.
  predicate WakeInv(s: State) {
    match s.phase
    case NotLooping => SomeSignals(s.pending) ==> WillWake(s) || s.owing
    case Handling(_) => !s.owing
    case Calling(_) => s.pending != [] ==> WillWake(s) || s.owing
    case Polling => !s.owing && (s.pending != [] ==> WillWake(s))
  }

  // Every start of the loop finds the queue empty, or a functor in it that was queued with a wakeup.
  predicate Orderly(s: State, schedule: seq<Action>)
    decreases schedule
  {
    schedule != [] ==>
      && (schedule[0].StartLoop? && Enabled(s, schedule[0]) ==> s.pending == [] || SomeSignals(s.pending))
      && Orderly(Next(s, schedule[0]), schedule[1..])
  }

  lemma StepWake(s: State, a: Action)
    requires WakeInv(s) && Enabled(s, a)
    requires a.StartLoop? ==> s.pending == [] || SomeSignals(s.pending)
    ensures WakeInv(Step(s, a))
  {
    var s' := Step(s, a);
    match a
    case LoopPush(id) =>
      if s.phase.NotLooping? && SomeSignals(s'.pending) {
        var f :| f in s'.pending && f.signals;
        assert f in s.pending;
      }
    case NextIteration =>
      assert SomeSignals(s.pending) ==> s.pending != [];
    case ForeignPush(t, id) => assert t in s'.foreign;
    case ForeignQuit(t) => assert t in s'.foreign;
    case _ =>
  }

  lemma {:induction false} RunWake(s: State, schedule: seq<Action>)
    requires WakeInv(s) && Orderly(s, schedule)
    ensures WakeInv(Run(s, schedule))
    decreases schedule
  {
    if schedule != [] {
      if Enabled(s, schedule[0]) { StepWake(s, schedule[0]); }
      RunWake(Next(s, schedule[0]), schedule[1..]);
    }
  }

  // Main result: over every interleaving of other threads' pushes and wakeups, of events, of
  // functors that queue functors, and of quitting and looping again, the loop never blocks with
  // functors pending that nobody will wake it up for.
  lemma NoLostWakeup(schedule: seq<Action>)
    requires Orderly(CREATED, schedule)
    ensures Awake(Run(CREATED, schedule))
  {
    RunWake(CREATED, schedule);
  }

  // However the run goes on, in good order, the loop stays awake.
  ghost predicate StaysAwake(s: State) {
    forall schedule :: Orderly(s, schedule) ==> Awake(Run(s, schedule))
  }

  // Exactly, for every state in which loop() can be called, at first or again: the loop stays awake
  // at every later moment if and only if nothing is queued, or the eventfd has been written and not
  // been read, or another thread is about to write it.
  lemma LoopsAwake(s: State)
    requires Enabled(s, StartLoop)
    ensures StaysAwake(Step(s, StartLoop)) <==> s.pending == [] || WillWake(s)
  {
    var s1 := Step(s, StartLoop);
    if s.pending == [] || WillWake(s) {
      forall schedule | Orderly(s1, schedule) ensures Awake(Run(s1, schedule)) {
        RunWake(s1, schedule);
      }
    } else {
      assert Orderly(s1, []);
      assert Run(s1, []) == s1 && !Awake(s1);
    }
  }

  // What other threads and the loop's own thread may do before loop() is first called
  predicate Prelude(schedule: seq<Action>) {
    forall a :: a in schedule ==> a.ForeignPush? || a.ForeignWakeup? || a.ForeignQuit? || a.LoopPush? || a.LoopQuit?
  }

  // Another thread queues something, or asks the loop to quit; both write the eventfd.
  predicate ForeignCalls(schedule: seq<Action>) { exists a :: a in schedule && (a.ForeignPush? || a.ForeignQuit?) }

  lemma {:induction false} AfterPrelude(s: State, schedule: seq<Action>)
    requires Prelude(schedule) && s.phase.NotLooping? && !s.owing
    ensures
      var s' := Run(s, schedule);
      s'.phase.NotLooping? && !s'.owing && (WillWake(s') <==> WillWake(s) || ForeignCalls(schedule))
    decreases schedule
  {
    if schedule != [] {
      var a := schedule[0];
      assert a in schedule && forall b :: b in schedule <==> b == a || b in schedule[1..];
      assert Enabled(s, a) && (a.ForeignPush? || a.ForeignQuit?) ==> a.thread in Step(s, a).foreign;
      AfterPrelude(Next(s, a), schedule[1..]);
    }
  }

  // Main result, exactly: after any prelude, a loop that is started stays awake at every later
  // moment if and only if, when loop() is called, nothing is queued or another thread has called.
  // A functor queued by the loop's own thread alone waits for the poll to time out.
  lemma StartsAwake(prelude: seq<Action>)
    requires Prelude(prelude)
    ensures
      var s := Run(CREATED, prelude);
      && Enabled(s, StartLoop)
      && (StaysAwake(Step(s, StartLoop)) <==> s.pending == [] || ForeignCalls(prelude))
  {
    AfterPrelude(CREATED, prelude);
    LoopsAwake(Run(CREATED, prelude));
  }

  // The input that shows it: the loop's own thread queues one functor and calls loop().
  lemma LostWakeup(id: nat)
    ensures !Awake(Run(CREATED, [LoopPush(id), StartLoop]))
  {
    var s := Run(Next(CREATED, LoopPush(id)), [StartLoop]);
    assert [LoopPush(id), StartLoop][1..] == [StartLoop];
    assert s == Run(Next(Next(CREATED, LoopPush(id)), StartLoop), []);
  }

  // Whatever happened before, one pass through the loop puts things right for as long as it runs.
  lemma OnePassHeals(s: State, schedule: seq<Action>)
    requires Enabled(s, Swap) && !s.owing
    requires Orderly(Step(s, Swap), schedule)
    ensures Awake(Run(Step(s, Swap), schedule))
  {
    RunWake(Step(s, Swap), schedule);
  }

  // -------- quitting --------

  // The loop is asked to quit, and starting it again forgets that.
  lemma QuitIs(s: State, a: Action)
    requires Enabled(s, a)
    ensures Step(s, a).quit == (a.ForeignQuit? || a.LoopQuit? || (s.quit && !a.StartLoop?))
    ensures a.NextIteration? ==> Step(s, a).phase == if s.quit then NotLooping else Polling
  {
  }

  // A loop that blocks although it is to quit is about to be woken.
  predicate QuitWakes(s: State) { s.phase.Polling? && s.quit ==> WillWake(s) }

  lemma {:induction false} RunQuitWakes(s: State, schedule: seq<Action>)
    requires QuitWakes(s)
    ensures QuitWakes(Run(s, schedule))
    decreases schedule
  {
    if schedule != [] {
      var a := schedule[0];
      if Enabled(s, a) && a.ForeignQuit? { assert a.thread in Step(s, a).foreign; }
      if Enabled(s, a) && a.ForeignPush? { assert a.thread in Step(s, a).foreign; }
      RunQuitWakes(Next(s, a), schedule[1..]);
    }
  }

  // Main result: over every interleaving, a loop that somebody has asked to quit does not stay blocked.
  lemma QuitIsHeard(schedule: seq<Action>)
    ensures QuitWakes(Run(CREATED, schedule))
  {
    RunQuitWakes(CREATED, schedule);
  }

  // How far the loop still is from the end of its iteration, by its phase and by what it has to do
  function Turn(p: Phase): nat {
    match p
    case NotLooping => 0
    case Calling(_) => 1
    case Handling(wakeupActive) => if wakeupActive then 3 else 2
    case Polling => 4
  }

  function StepsLeft(s: State): nat {
    Turn(s.phase) + if s.phase.Calling? then |s.phase.todo| else if s.phase.NotLooping? then 0 else |s.pending|
  }

  predicate OwnStep(a: Action) { a.PollReturns? || a.ReadEventfd? || a.Swap? || a.RunFunctor? || a.NextIteration? }

  // Each step of the loop's own brings it nearer to the end of its iteration, there is always one to take,
  // and once it is to quit, that is where it ends: it never polls again.
  lemma QuitEnds(s: State, a: Action)
    requires s.quit && Enabled(s, a) && !a.StartLoop?
    ensures Step(s, a).quit && Turn(Step(s, a).phase) <= Turn(s.phase)
    ensures OwnStep(a) ==> StepsLeft(Step(s, a)) < StepsLeft(s)
    ensures a.NextIteration? ==> Step(s, a).phase == NotLooping
  {
  }

  lemma SomeStepLeft(s: State)
    requires !s.phase.NotLooping? && (s.phase.Handling? || s.phase.Polling? ==> !s.owing)
    ensures exists a :: Enabled(s, a) && (OwnStep(a) || a.LoopWakeup?)
  {
    match s.phase
    case Polling => assert Enabled(s, PollReturns(false));
    case Handling(wakeupActive) => assert Enabled(s, if wakeupActive then ReadEventfd else Swap);
    case Calling(todo) =>
      assert Enabled(s, if s.owing then LoopWakeup else if todo == [] then NextIteration else RunFunctor);
  }

  // At its i-th action the schedule comes to the end of an iteration.
  predicate Iterates(s: State, schedule: seq<Action>, i: nat)
    requires i < |schedule|
  {
    schedule[i] == NextIteration && Enabled(Run(s, schedule[..i]), NextIteration)
  }

  // Main result: from the moment that it is asked to, and until it is started again, the loop finishes the
  // iteration that it is in and begins no other.
  lemma {:induction false} NoMoreIterations(s: State, schedule: seq<Action>)
    requires s.quit && forall a :: a in schedule ==> !a.StartLoop?
    ensures Run(s, schedule).quit && Turn(Run(s, schedule).phase) <= Turn(s.phase)
    ensures (exists i :: 0 <= i < |schedule| && Iterates(s, schedule, i)) ==> Run(s, schedule).phase == NotLooping
    decreases schedule
  {
    if schedule != [] {
      var a, t := schedule[0], schedule[1..];
      assert a in schedule;
      if Enabled(s, a) { QuitEnds(s, a); }
      NoMoreIterations(Next(s, a), t);
      if i :| 0 <= i < |schedule| && Iterates(s, schedule, i) {
        if i == 0 {
          assert schedule[..0] == [];
          assert Turn(Run(Next(s, a), t).phase) == 0;
        } else {
          assert schedule[..i][0] == a && schedule[..i][1..] == t[..i - 1];
          assert Iterates(Next(s, a), t, i - 1);
        }
      }
    }
  }

  // Reading the eventfd leaves nothing to wake the loop up but threads that are about to.
  lemma ReadQuiets(s: State)
    requires Enabled(s, ReadEventfd)
    ensures WillWake(Step(s, ReadEventfd)) <==> s.foreign != {}
  {
  }

  // -------- in order, once each --------

  function Batch(s: State): seq<Functor> { if s.phase.Calling? then s.phase.todo else [] }

  ghost predicate InOrder(s: State) { s.queued == s.executed + Batch(s) + s.pending }

  lemma StepInOrder(s: State, a: Action)
    requires InOrder(s) && Enabled(s, a)
    ensures InOrder(Step(s, a))
  {
    if a.RunFunctor? {
      assert s.phase.todo == [s.phase.todo[0]] + s.phase.todo[1..];
    }
  }

  lemma {:induction false} RunInOrder(s: State, schedule: seq<Action>)
    requires InOrder(s)
    ensures InOrder(Run(s, schedule))
    decreases schedule
  {
    if schedule != [] {
      if Enabled(s, schedule[0]) { StepInOrder(s, schedule[0]); }
      RunInOrder(Next(s, schedule[0]), schedule[1..]);
    }
  }

  // Main result: in every run, what has been executed, then the rest of the batch, then what is
  // pending is exactly what was ever queued, in order, nothing lost and nothing twice.
  lemma ExecutedInOrder(schedule: seq<Action>)
    ensures
      var s := Run(CREATED, schedule);
      s.queued == s.executed + Batch(s) + s.pending
  {
    RunInOrder(CREATED, schedule);
  }

  // From s to s' the loop works on the same batch, and only adds to what is pending.
  ghost predicate SameBatch(s: State, s': State, more: seq<Functor>) {
    && s.phase.Calling? && s'.phase.Calling?
    && s'.executed + s'.phase.todo == s.executed + s.phase.todo
    && s'.pending == s.pending + more
    && s'.queued == s.queued + more
  }

  lemma StepInBatch(s: State, a: Action) returns (more: seq<Functor>)
    requires s.phase.Calling? && !a.NextIteration?
    ensures SameBatch(s, Next(s, a), more)
  {
    var s1 := Next(s, a);
    more := if |s1.pending| > |s.pending| then [s1.pending[|s.pending|]] else [];
    if a.RunFunctor? && Enabled(s, a) {
      assert s.phase.todo == [s.phase.todo[0]] + s1.phase.todo;
    }
  }

  // Main result: between a swap and the end of that iteration, the functors executed are exactly
  // those swapped, however many are queued meanwhile; these all wait for the next iteration.
  lemma {:induction false} IterationRunsBatch(s: State, schedule: seq<Action>) returns (more: seq<Functor>)
    requires s.phase.Calling?
    requires forall a :: a in schedule ==> !a.NextIteration?
    ensures SameBatch(s, Run(s, schedule), more)
    ensures Run(s, schedule).phase.todo == [] ==> Run(s, schedule).executed == s.executed + s.phase.todo
    decreases schedule
  {
    more := [];
    if schedule != [] {
      assert schedule[0] in schedule;
      var now := StepInBatch(s, schedule[0]);
      var later := IterationRunsBatch(Next(s, schedule[0]), schedule[1..]);
      more := now + later;
      assert s.pending + now + later == s.pending + more && s.queued + now + later == s.queued + more;
    }
  }

  // -------- the object --------

  class EventLoop {
    var pending: seq<Functor>
    var callingPendingFunctors: bool
    var eventfd: nat
    ghost var executed: seq<Functor>
    ghost var queued: seq<Functor>

    ghost predicate Valid(batch: seq<Functor>)
      reads this
    {
      && queued == executed + batch + pending
      && (callingPendingFunctors && pending != [] ==> eventfd > 0)
    }

    constructor ()
      ensures Valid([]) && pending == [] && executed == [] && !callingPendingFunctors && eventfd == 0
    {
      pending, callingPendingFunctors, eventfd, executed, queued := [], false, 0, [], [];
    }

    method Wakeup()
      modifies this`eventfd
      ensures eventfd == old(eventfd) + 1
    {
      eventfd := eventfd + 1;
    }

    method HandleRead()
      modifies this`eventfd
      ensures eventfd == 0
    {
      eventfd := 0;
    }

    method QueueInLoop(id: nat, inLoopThread: bool, ghost batch: seq<Functor>)
      requires Valid(batch)
      modifies this`pending, this`queued, this`eventfd
      ensures Valid(batch)
      ensures pending == old(pending) + [Functor(id, !inLoopThread || callingPendingFunctors)]
      ensures eventfd == old(eventfd) + if !inLoopThread || callingPendingFunctors then 1 else 0
    {
      var f := Functor(id, !inLoopThread || callingPendingFunctors);
      pending := pending + [f];
      queued := queued + [f];
      if !inLoopThread || callingPendingFunctors {
        Wakeup();
      }
    }

    // more is what is queued, by anyone, while f runs.
    method RunOne(f: Functor, more: seq<nat>, ghost rest: seq<Functor>)
      requires Valid([f] + rest) && callingPendingFunctors
      modifies this`pending, this`queued, this`eventfd, this`executed
      ensures Valid(rest) && executed == old(executed) + [f] && pending == old(pending) + Signalling(more)
    {
      executed := executed + [f];
      for j := 0 to |more|
        invariant Valid(rest) && executed == old(executed) + [f]
        invariant pending == old(pending) + Signalling(more[..j])
      {
        QueueInLoop(more[j], true, rest);
      }
      assert more[..|more|] == more;
    }

    // meanwhile[i] is what is queued, by anyone, while the i-th functor of the batch runs.
    method DoPendingFunctors(meanwhile: seq<seq<nat>>)
      requires Valid([]) && !callingPendingFunctors && |meanwhile| == |pending|
      modifies this
      ensures Valid([]) && !callingPendingFunctors
      ensures executed == old(executed) + old(pending)
      ensures pending == Signalling(Flat(meanwhile))
      ensures pending != [] ==> eventfd > 0
    {
      callingPendingFunctors := true;
      var functors := pending;
      pending := [];
      for i := 0 to |functors|
        invariant Valid(functors[i..]) && callingPendingFunctors
        invariant executed == old(executed) + functors[..i]
        invariant pending == Signalling(Flat(meanwhile[..i]))
      {
        assert functors[i..] == [functors[i]] + functors[i + 1..];
        RunOne(functors[i], meanwhile[i], functors[i + 1..]);
        SignallingSum(Flat(meanwhile[..i]), meanwhile[i]);
        assert meanwhile[..i + 1][..i] == meanwhile[..i];
      }
      assert meanwhile[..|functors|] == meanwhile;
      callingPendingFunctors := false;
    }
  }

  function Flat(m: seq<seq<nat>>): seq<nat> {
    if m == [] then [] else Flat(m[..|m| - 1]) + m[|m| - 1]
  }

  lemma SignallingSum(a: seq<nat>, b: seq<nat>)
    ensures Signalling(a + b) == Signalling(a) + Signalling(b)
  {
  }

  function Signalling(ids: seq<nat>): seq<Functor> {
    seq(|ids|, i requires 0 <= i < |ids| => Functor(ids[i], true))
  }
}
