/** The bounded queue between a node's producers and its one worker, and what the worker sends. */
module NodeJobQueues {
  import opened Text

  datatype Job = Job(workId: string, requestId: string, input: string, stream: bool)

  // What the mutex protects
  datatype Shared = Shared(max: nat, jobs: seq<Job>, running: bool)

  // The critical sections of push and wait_pop
  function Put(q: Shared, job: Job): (Shared, bool) {
    if !q.running || |q.jobs| >= q.max then (q, false) else (q.(jobs := q.jobs + [job]), true)
  }

  predicate MayTake(q: Shared) { q.jobs != [] || !q.running }

  function Take(q: Shared): (Shared, Option<Job>) {
    if q.jobs == [] then (q, None) else (q.(jobs := q.jobs[1..]), Some(q.jobs[0]))
  }

  // -------- the machine: producers, the worker, and whoever stops it --------

  // What the worker sends; no is the number of the job, in the order of popping
  datatype Message =
    | Chunk(no: nat, index: nat, delta: string, finish: bool)
    | Failed(no: nat)
    | Result(no: nat)

  datatype Worker =
    | Ready                  // about to lock and look
    | Waiting                // blocked on the condition variable
    | Working(index: nat)    // on the job popped last
    | Ended

  datatype State = State(
    q: Shared,
    worker: Worker,
    notifies: nat,              // producers between their unlock and notify_one
    stops: nat,                 // calls of stop between their unlock and notify_all
    owed: multiset<Job>,        // refused, and the reply not yet sent
    accepted: seq<Job>,
    popped: seq<Job>,
    refused: multiset<Job>,
    replied: multiset<Job>,     // told that the queue is full
    sent: seq<Message>)

  datatype Action =
    | Push(job: Job)
    | NotifyOne
    | Reply(refusedJob: Job)
    | Stop
    | NotifyAll
    | Look(alive: bool)                        // the worker locks; alive: task and channel of the job still exist
    | Spurious                                 // a wakeup that nobody asked for
    | Emit(text: string, finish: bool)         // the engine calls back
    | Done(success: bool)

  predicate Enabled(s: State, a: Action) {
    match a
    case Push(_) => true
    case NotifyOne => s.notifies > 0
    case Reply(job) => job in s.owed
    case Stop => true
    case NotifyAll => s.stops > 0
    case Look(_) => s.worker == Ready
    case Spurious => s.worker == Waiting
    case Emit(_, _) => s.worker.Working? && s.popped != [] && s.popped[|s.popped| - 1].stream
    case Done(_) => s.worker.Working?
  }

  function Wake(w: Worker): Worker { if w == Waiting then Ready else w }

  function Refuse(s: State, job: Job): State {
    s.(owed := s.owed + multiset{job}, refused := s.refused + multiset{job})
  }

  function LookNow(s: State, alive: bool): State {
    if !MayTake(s.q) then s.(worker := Waiting)
    else
      match Take(s.q)
      case (q, None) => s.(worker := Ended)
      case (q, Some(job)) => s.(q := q, popped := s.popped + [job], worker := if alive then Working(0) else Ready)
  }

  function Step(s: State, a: Action): State
    requires Enabled(s, a)
  {
    match a
    case Push(job) =>
      (var (q, ok) := Put(s.q, job);
       if ok then s.(q := q, notifies := s.notifies + 1, accepted := s.accepted + [job]) else Refuse(s, job))
    case NotifyOne => s.(notifies := s.notifies - 1, worker := Wake(s.worker))
    case Reply(job) => s.(owed := s.owed - multiset{job}, replied := s.replied + multiset{job})
    case Stop => s.(q := s.q.(running := false), stops := s.stops + 1)
    case NotifyAll => s.(stops := s.stops - 1, worker := Wake(s.worker))
    case Look(alive) => LookNow(s, alive)
    case Spurious => s.(worker := Ready)
    case Emit(text, finish) =>
      s.(worker := Working(s.worker.index + 1),
         sent := s.sent + [Chunk(|s.popped| - 1, s.worker.index, if finish then "" else text, finish)])
    case Done(success) => s.(worker := Ready, sent := s.sent + Ending(s, success))
  }

  // What is sent when a job ends: an error if it failed, and a result if it is not a stream
  function Ending(s: State, success: bool): seq<Message> {
    if s.popped == [] then []
    else
      var no := |s.popped| - 1;
      if !success then [Failed(no)] else if s.popped[no].stream then [] else [Result(no)]
  }

  function Start(max: nat): State {
    State(Shared(max, [], true), Ready, 0, 0, multiset{}, [], [], multiset{}, multiset{}, [])
  }

  // -------- the queue --------

  ghost predicate QueueInv(s: State) {
    && s.accepted == s.popped + s.q.jobs
    && |s.q.jobs| <= s.q.max
    && s.replied + s.owed == s.refused
    && (s.worker == Waiting ==> |s.q.jobs| <= s.notifies)
    && (s.worker == Waiting && !s.q.running ==> s.stops > 0)
    && (s.worker == Ended ==> !s.q.running && s.q.jobs == [])
    && (s.worker.Working? ==> s.popped != [])
  }

  // Main result: one step keeps it, accepts nothing once stopped, pops only the oldest, and leaves
  // what was accepted and popped as the start of what will have been.
  lemma QueueKeeps(s: State, a: Action)
    requires QueueInv(s) && Enabled(s, a)
    ensures
      var s' := Step(s, a);
      && QueueInv(s') && s'.q.max == s.q.max
      && (!s.q.running ==> !s'.q.running && s'.accepted == s.accepted)
      && s.accepted <= s'.accepted && s.popped <= s'.popped && |s'.popped| <= |s.popped| + 1
      && (s.worker == Ended ==> s'.worker == Ended && s'.popped == s.popped)
  {
    match a {
      case Look(alive) =>
        if s.q.jobs != [] {
          assert s.popped + s.q.jobs == s.popped + [s.q.jobs[0]] + s.q.jobs[1..];
        }
      case Push(job) => assert s.popped + (s.q.jobs + [job]) == (s.popped + s.q.jobs) + [job];
      case _ =>
    }
  }

  // No lost notification: a worker that could go on but is blocked is about to be woken.
  lemma NoLostNotification(s: State)
    requires QueueInv(s) && s.worker == Waiting && MayTake(s.q)
    ensures Enabled(s, NotifyOne) || Enabled(s, NotifyAll)
    ensures Enabled(s, NotifyOne) ==> Step(s, NotifyOne).worker == Ready
    ensures Enabled(s, NotifyAll) ==> Step(s, NotifyAll).worker == Ready
  {
  }

  // What the invariant says of an ended worker: it ends only when stopped, and then every job that
  // was ever accepted has been popped, in order; each refused job has had, or is still owed, one reply
  // of its own.
  lemma EndedPoppedAll(s: State)
    requires QueueInv(s)
    ensures s.worker == Ended ==> !s.q.running && s.popped == s.accepted
    ensures s.owed == multiset{} ==> s.replied == s.refused
  {
  }

  // -------- it ends --------

  // The steps that the node itself still has to take
  predicate Internal(a: Action) { a.NotifyOne? || a.NotifyAll? || a.Look? || a.Spurious? || a.Done? }

  function Rank(s: State): nat {
    4 * |s.q.jobs| + s.notifies + s.stops
    + match s.worker { case Ready => 1 case Waiting => 2 case Working(_) => 3 case Ended => 0 }
  }

  // Main result: once stopped, the worker ends. As long as it has not, some step is left to take,
  // and each such step brings it nearer; nothing that others do takes it further away.
  lemma StopDrains(s: State)
    requires QueueInv(s) && !s.q.running
    ensures s.worker != Ended ==> Enabled(s, NotifyAll) || Enabled(s, Look(true)) || Enabled(s, Done(true))
    ensures forall a :: Enabled(s, a) && Internal(a) && s.worker != Ended ==> Rank(Step(s, a)) < Rank(s)
    ensures forall a :: Enabled(s, a) && !a.Stop? ==> Rank(Step(s, a)) <= Rank(s)
  {
  }

  // -------- what the worker sends --------

  function MessagesOf(sent: seq<Message>, no: nat): (ms: seq<Message>)
    ensures forall m :: m in ms ==> m in sent && m.no == no
  {
    if sent == [] then []
    else
      var last := sent[|sent| - 1];
      MessagesOf(sent[..|sent| - 1], no) + if last.no == no then [last] else []
  }

  lemma {:induction false} NoMessages(sent: seq<Message>, no: nat)
    requires forall m :: m in sent ==> m.no != no
    ensures MessagesOf(sent, no) == []
  {
    if sent != [] {
      assert sent[|sent| - 1] in sent;
      NoMessages(sent[..|sent| - 1], no);
    }
  }

  lemma MessagesPush(sent: seq<Message>, m: Message, no: nat)
    ensures MessagesOf(sent + [m], no) == MessagesOf(sent, no) + if m.no == no then [m] else []
  {
    assert (sent + [m])[..|sent|] == sent;
  }

  // A job's chunks are numbered 0, 1, 2, ..., a finishing one has no text, only streams have any,
  // and an error or a result comes last.
  predicate InOrder(ms: seq<Message>, stream: bool) {
    && (forall k :: 0 <= k < |ms| && ms[k].Chunk? ==>
      ms[k].index == k && stream && (ms[k].finish ==> ms[k].delta == ""))
    && (forall k :: 0 <= k < |ms| - 1 ==> ms[k].Chunk?)
    && (forall k :: 0 <= k < |ms| && ms[k].Result? ==> !stream)
  }

  ghost predicate SentInv(s: State) {
    && (forall m :: m in s.sent ==> m.no < |s.popped|)
    && (forall i, j :: 0 <= i <= j < |s.sent| ==> s.sent[i].no <= s.sent[j].no)
    && (forall no {:trigger MessagesOf(s.sent, no)} :: 0 <= no < |s.popped| ==>
        InOrder(MessagesOf(s.sent, no), s.popped[no].stream))
    && (s.worker.Working? && s.popped != [] ==> OnlyChunks(MessagesOf(s.sent, |s.popped| - 1), s.worker.index))
  }

  predicate OnlyChunks(ms: seq<Message>, n: nat) { |ms| == n && forall k :: 0 <= k < |ms| ==> ms[k].Chunk? }

  predicate Fits(m: Message, index: nat, stream: bool) {
    && (m.Chunk? ==> m.index == index && stream && (m.finish ==> m.delta == ""))
    && (m.Result? ==> !stream)
  }

  lemma InOrderPush(ms: seq<Message>, m: Message, index: nat, stream: bool)
    requires InOrder(ms, stream) && OnlyChunks(ms, index) && Fits(m, index, stream)
    ensures InOrder(ms + [m], stream) && (m.Chunk? ==> OnlyChunks(ms + [m], index + 1))
  {
  }

  lemma SendKeeps(s: State, s': State, m: Message)
    requires QueueInv(s) && SentInv(s) && s.worker.Working?
    requires s'.popped == s.popped && s'.sent == s.sent + [m] && m.no == |s.popped| - 1
    requires Fits(m, s.worker.index, s.popped[m.no].stream)
    requires s'.worker.Working? ==> m.Chunk? && s'.worker.index == s.worker.index + 1
    ensures SentInv(s')
  {
    MessagesPush(s.sent, m, m.no);
    InOrderPush(MessagesOf(s.sent, m.no), m, s.worker.index, s.popped[m.no].stream);
    forall no | 0 <= no < |s.popped| ensures InOrder(MessagesOf(s'.sent, no), s.popped[no].stream) {
      OthersInOrder(s.sent, m, no, s.popped[no].stream);
    }
    SortedPush(s.sent, m);
  }

  lemma OthersInOrder(sent: seq<Message>, m: Message, no: nat, stream: bool)
    requires InOrder(MessagesOf(sent, no), stream)
    ensures no != m.no ==> InOrder(MessagesOf(sent + [m], no), stream)
  {
    MessagesPush(sent, m, no);
    assert MessagesOf(sent, no) + [] == MessagesOf(sent, no);
  }

  lemma SortedPush(sent: seq<Message>, m: Message)
    requires forall i, j :: 0 <= i <= j < |sent| ==> sent[i].no <= sent[j].no
    requires forall x :: x in sent ==> x.no <= m.no
    ensures forall i, j :: 0 <= i <= j < |sent + [m]| ==> (sent + [m])[i].no <= (sent + [m])[j].no
  {
    assert forall i :: 0 <= i < |sent| ==> sent[i] in sent;
  }

  lemma PopKeeps(s: State, s': State)
    requires QueueInv(s) && SentInv(s) && s'.sent == s.sent && |s'.popped| == |s.popped| + 1 && s.popped <= s'.popped
    requires s'.worker.Working? ==> s'.worker.index == 0
    ensures SentInv(s')
  {
    NoMessages(s.sent, |s.popped|);
    forall no | 0 <= no < |s'.popped| ensures InOrder(MessagesOf(s'.sent, no), s'.popped[no].stream) {
      if no < |s.popped| {
        assert s'.popped[no] == s.popped[no];
      }
    }
  }

  lemma EmitKeeps(s: State, text: string, finish: bool)
    requires QueueInv(s) && SentInv(s) && Enabled(s, Emit(text, finish))
    ensures SentInv(Step(s, Emit(text, finish)))
  {
    var s' := Step(s, Emit(text, finish));
    SendKeeps(s, s', s'.sent[|s.sent|]);
  }

  lemma DoneKeeps(s: State, success: bool)
    requires QueueInv(s) && SentInv(s) && Enabled(s, Done(success))
    ensures SentInv(Step(s, Done(success)))
  {
    var s' := Step(s, Done(success));
    if Ending(s, success) == [] {
      assert s'.sent == s.sent;
    } else {
      SendKeeps(s, s', Ending(s, success)[0]);
    }
  }

  // Main result: whatever the engine calls back with, and whichever jobs fail or are skipped, the
  // messages of each job are in order, and no job's messages come before those of an earlier one.
  lemma SentKeeps(s: State, a: Action)
    requires QueueInv(s) && SentInv(s) && Enabled(s, a)
    ensures SentInv(Step(s, a))
  {
    var s' := Step(s, a);
    match a {
      case Emit(text, finish) => EmitKeeps(s, text, finish);
      case Done(success) => DoneKeeps(s, success);
      case Look(alive) =>
        if s.q.jobs != [] {
          PopKeeps(s, s');
        }
      case _ =>
    }
  }

  // -------- whole runs --------

  ghost predicate Reached(s: State, actions: seq<Action>, s': State)
    decreases actions
  {
    if actions == [] then s' == s else Enabled(s, actions[0]) && Reached(Step(s, actions[0]), actions[1..], s')
  }

  lemma {:induction false} RunKeeps(s: State, actions: seq<Action>, s': State)
    requires QueueInv(s) && SentInv(s) && Reached(s, actions, s')
    ensures QueueInv(s') && SentInv(s') && s.popped <= s'.popped && s.accepted <= s'.accepted
    ensures !s.q.running ==> !s'.q.running && s'.accepted == s.accepted
    decreases actions
  {
    if actions != [] {
      QueueKeeps(s, actions[0]);
      SentKeeps(s, actions[0]);
      RunKeeps(Step(s, actions[0]), actions[1..], s');
    }
  }

  // How many steps it takes at most to end the worker once stopped
  lemma {:induction false} EndsInTime(s: State, actions: seq<Action>, s': State)
    requires QueueInv(s) && !s.q.running && Reached(s, actions, s') && s'.worker != Ended
    requires forall a :: a in actions ==> Internal(a)
    ensures |actions| + Rank(s') <= Rank(s)
    decreases actions
  {
    if actions != [] {
      assert actions[0] in actions;
      QueueKeeps(s, actions[0]);
      if s.worker == Ended {
        EndedStays(Step(s, actions[0]), actions[1..], s');
      }
      StopDrains(s);
      EndsInTime(Step(s, actions[0]), actions[1..], s');
    }
  }

  lemma {:induction false} EndedStays(s: State, actions: seq<Action>, s': State)
    requires QueueInv(s) && Reached(s, actions, s') && s.worker == Ended
    ensures s'.worker == Ended
    decreases actions
  {
    if actions != [] {
      QueueKeeps(s, actions[0]);
      EndedStays(Step(s, actions[0]), actions[1..], s');
    }
  }

  // Main result: what holds whenever a run of a fresh queue has ended its worker.
  lemma RunEnds(max: nat, actions: seq<Action>, s: State)
    requires Reached(Start(max), actions, s) && s.worker == Ended
    ensures s.popped == s.accepted
    ensures forall no {:trigger MessagesOf(s.sent, no)} :: 0 <= no < |s.accepted| ==>
      InOrder(MessagesOf(s.sent, no), s.accepted[no].stream)
    ensures s.replied + s.owed == s.refused
  {
    RunKeeps(Start(max), actions, s);
    EndedPoppedAll(s);
  }

  // -------- what happens to a job --------

  // What the worker does about a job, by the look of it: a job whose task and channel are there is
  // worked on, and the worker blocks only when there is no job and more may come.
  lemma LookIff(s: State, alive: bool)
    requires QueueInv(s) && s.worker == Ready
    ensures
      var s', any := Step(s, Look(alive)), s.q.jobs != [];
      && (s'.worker == Waiting <==> !any && s.q.running) && (s'.worker == Ended <==> !any && !s.q.running)
      && (s'.worker == Working(0) <==> any && alive) && (s'.worker == Ready <==> any && !alive)
      && s'.popped + s'.q.jobs == s.popped + s.q.jobs && (|s'.popped| == |s.popped| + 1 <==> any)
  {
    if s.q.jobs != [] {
      assert s.popped + s.q.jobs == (s.popped + [s.q.jobs[0]]) + s.q.jobs[1..];
    }
  }

  // The jobs that producers have tried to push
  function Pushed(actions: seq<Action>): multiset<Job> {
    if actions == [] then multiset{}
    else (if actions[0].Push? then multiset{actions[0].job} else multiset{}) + Pushed(actions[1..])
  }

  // Each push is accepted or refused, and nothing else is.
  lemma {:induction false} EveryPushCounts(s: State, actions: seq<Action>, s': State)
    requires Reached(s, actions, s')
    ensures multiset(s'.accepted) + s'.refused == multiset(s.accepted) + s.refused + Pushed(actions)
    decreases actions
  {
    if actions != [] {
      EveryPushCounts(Step(s, actions[0]), actions[1..], s');
    }
  }

  // What an engine calls back with
  datatype Call = Call(text: string, finish: bool)

  // What befalls a job: what its engine has called back with, how its work came out, each time that it
  // did, and whether task and channel were there when it was popped, each time that it was
  datatype Tale = Tale(heard: seq<Call>, outcomes: seq<bool>, found: seq<bool>)

  const UNTOLD := Tale([], [], [])

  // Job no is the one popped last.
  predicate IsLast(s: State, no: nat) { |s.popped| == no + 1 }

  function Tell(t: Tale, s: State, a: Action, no: nat): Tale {
    match a
    case Emit(text, finish) => if IsLast(s, no) then t.(heard := t.heard + [Call(text, finish)]) else t
    case Done(success) => if IsLast(s, no) then t.(outcomes := t.outcomes + [success]) else t
    case Look(alive) => if s.q.jobs != [] && |s.popped| == no then t.(found := t.found + [alive]) else t
    case _ => t
  }

  // What befalls job no in a run
  function TaleOf(t: Tale, s: State, actions: seq<Action>, no: nat): Tale
    decreases actions
  {
    if actions == [] || !Enabled(s, actions[0]) then t
    else TaleOf(Tell(t, s, actions[0], no), Step(s, actions[0]), actions[1..], no)
  }

  // What is to be sent for it
  function ChunkFor(no: nat, index: nat, call: Call): Message {
    Chunk(no, index, if call.finish then "" else call.text, call.finish)
  }

  function ChunksFor(no: nat, calls: seq<Call>): (ms: seq<Message>)
    ensures |ms| == |calls| && forall k :: 0 <= k < |ms| ==> ms[k] == ChunkFor(no, k, calls[k])
  {
    if calls == [] then []
    else
      var n := |calls| - 1;
      ChunksFor(no, calls[..n]) + [ChunkFor(no, n, calls[n])]
  }

  function EndFor(no: nat, stream: bool, outcomes: seq<bool>): seq<Message> {
    if outcomes == [] then [] else if !outcomes[0] then [Failed(no)] else if stream then [] else [Result(no)]
  }

  // The messages of a job are what its engine has called back with, and then the end that goes with the
  // outcome. A job that was found comes to exactly one outcome, unless it is still at work, when the
  // number of its next chunk is given; one that was not found is never worked on.
  predicate Honest(ms: seq<Message>, t: Tale, no: nat, stream: bool, busy: Option<nat>) {
    && ms == ChunksFor(no, t.heard) + EndFor(no, stream, t.outcomes)
    && |t.found| == 1 && |t.outcomes| == (if t.found[0] && busy.None? then 1 else 0)
    && (busy.Some? ==> t.found[0] && busy.value == |t.heard|)
    && (!t.found[0] ==> t.heard == [])
  }

  function Busy(s: State, no: nat): Option<nat> {
    if IsLast(s, no) && s.worker.Working? then Some(s.worker.index) else None
  }

  // A job that is not popped yet has no tale and no messages.
  predicate Told(t: Tale, s: State, no: nat) {
    if no < |s.popped| then Honest(MessagesOf(s.sent, no), t, no, s.popped[no].stream, Busy(s, no))
    else t == UNTOLD && MessagesOf(s.sent, no) == []
  }

  lemma HonestEmit(ms: seq<Message>, t: Tale, no: nat, stream: bool, index: nat, call: Call)
    requires Honest(ms, t, no, stream, Some(index))
    ensures
      Honest(ms + [ChunkFor(no, index, call)], t.(heard := t.heard + [call]), no, stream, Some(index + 1))
  {
    var calls := t.heard + [call];
    assert calls[..|t.heard|] == t.heard;
    assert ChunksFor(no, calls) + [] == ChunksFor(no, calls) && ChunksFor(no, t.heard) + [] == ChunksFor(no, t.heard);
  }

  lemma HonestDone(ms: seq<Message>, t: Tale, no: nat, stream: bool, index: nat, success: bool)
    requires Honest(ms, t, no, stream, Some(index))
    ensures
      Honest(ms + EndFor(no, stream, [success]), t.(outcomes := t.outcomes + [success]), no, stream, None)
  {
    assert ChunksFor(no, t.heard) + [] == ChunksFor(no, t.heard) && t.outcomes + [success] == [success];
  }

  lemma HonestPop(no: nat, stream: bool, alive: bool)
    ensures Honest([], Tale([], [], [alive]), no, stream, if alive then Some(0) else None)
  {
  }

  // A step that does not concern a job
  lemma ElsewhereTold(t: Tale, s: State, s': State, no: nat)
    requires Told(t, s, no) && MessagesOf(s'.sent, no) == MessagesOf(s.sent, no)
    requires no < |s.popped| <==> no < |s'.popped|
    requires no < |s.popped| ==> s'.popped[no] == s.popped[no] && Busy(s', no) == Busy(s, no)
    ensures Told(t, s', no)
  {
  }

  // Messages that are sent for the job popped last
  lemma SentMore(s: State, more: seq<Message>, no: nat)
    requires s.popped != [] && |more| <= 1 && forall m :: m in more ==> m.no == |s.popped| - 1
    ensures MessagesOf(s.sent + more, no) ==
      if IsLast(s, no) then MessagesOf(s.sent, no) + more else MessagesOf(s.sent, no)
  {
    if more == [] {
      assert s.sent + more == s.sent && MessagesOf(s.sent, no) + more == MessagesOf(s.sent, no);
    } else {
      assert more == [more[0]] && more[0] in more;
      MessagesPush(s.sent, more[0], no);
    }
  }

  lemma EmitTold(t: Tale, s: State, text: string, finish: bool, no: nat)
    requires QueueInv(s) && Enabled(s, Emit(text, finish)) && Told(t, s, no)
    ensures Told(Tell(t, s, Emit(text, finish), no), Step(s, Emit(text, finish)), no)
  {
    var s', m := Step(s, Emit(text, finish)), ChunkFor(|s.popped| - 1, s.worker.index, Call(text, finish));
    EmitIs(s, text, finish);
    SentMore(s, [m], no);
    if IsLast(s, no) {
      EmitTellsLast(t, s, s', no, Call(text, finish));
    } else {
      ElsewhereTold(t, s, s', no);
    }
  }

  lemma EmitIs(s: State, text: string, finish: bool)
    requires QueueInv(s) && Enabled(s, Emit(text, finish))
    ensures
      var s' := Step(s, Emit(text, finish));
      && s'.sent == s.sent + [ChunkFor(|s.popped| - 1, s.worker.index, Call(text, finish))]
      && s'.popped == s.popped && s'.worker == Working(s.worker.index + 1)
  {
  }

  lemma EmitTellsLast(t: Tale, s: State, s': State, no: nat, call: Call)
    requires IsLast(s, no) && s.worker.Working? && Told(t, s, no)
    requires s'.popped == s.popped && s'.worker == Working(s.worker.index + 1)
    requires MessagesOf(s'.sent, no) == MessagesOf(s.sent, no) + [ChunkFor(no, s.worker.index, call)]
    ensures Told(t.(heard := t.heard + [call]), s', no)
  {
    var ms, index := MessagesOf(s.sent, no), s.worker.index;
    HonestEmit(ms, t, no, s.popped[no].stream, index, call);
    NowTold(t.(heard := t.heard + [call]), s', no, ms + [ChunkFor(no, index, call)], Some(index + 1));
  }

  lemma NowTold(t: Tale, s: State, no: nat, ms: seq<Message>, busy: Option<nat>)
    requires no < |s.popped| && Honest(ms, t, no, s.popped[no].stream, busy)
    requires ms == MessagesOf(s.sent, no) && busy == Busy(s, no)
    ensures Told(t, s, no)
  {
  }

  lemma EndingIs(s: State, success: bool)
    requires s.popped != []
    ensures Ending(s, success) == EndFor(|s.popped| - 1, s.popped[|s.popped| - 1].stream, [success])
    ensures |Ending(s, success)| <= 1 && forall m :: m in Ending(s, success) ==> m.no == |s.popped| - 1
  {
  }

  lemma DoneTold(t: Tale, s: State, success: bool, no: nat)
    requires QueueInv(s) && Enabled(s, Done(success)) && Told(t, s, no)
    ensures Told(Tell(t, s, Done(success), no), Step(s, Done(success)), no)
  {
    EndingIs(s, success);
    SentMore(s, Ending(s, success), no);
    if IsLast(s, no) {
      var ms, stream := MessagesOf(s.sent, no), s.popped[no].stream;
      HonestDone(ms, t, no, stream, s.worker.index, success);
      var more := EndFor(no, stream, [success]);
      NowTold(t.(outcomes := t.outcomes + [success]), Step(s, Done(success)), no, ms + more, None);
    } else {
      ElsewhereTold(t, s, Step(s, Done(success)), no);
    }
  }

  lemma LookTold(t: Tale, s: State, alive: bool, no: nat)
    requires QueueInv(s) && s.worker == Ready && Told(t, s, no)
    ensures Told(Tell(t, s, Look(alive), no), Step(s, Look(alive)), no)
  {
    var s' := Step(s, Look(alive));
    if s.q.jobs != [] && no == |s.popped| {
      HonestPop(no, s'.popped[no].stream, alive);
      assert UNTOLD.found + [alive] == [alive];
    } else {
      ElsewhereTold(t, s, s', no);
    }
  }

  lemma StepTold(t: Tale, s: State, a: Action, no: nat)
    requires QueueInv(s) && Enabled(s, a) && Told(t, s, no)
    ensures Told(Tell(t, s, a, no), Step(s, a), no)
  {
    match a
    case Emit(text, finish) => EmitTold(t, s, text, finish, no);
    case Done(success) => DoneTold(t, s, success, no);
    case Look(alive) => LookTold(t, s, alive, no);
    case _ => ElsewhereTold(t, s, Step(s, a), no);
  }

  lemma {:induction false} RunTold(t: Tale, s: State, actions: seq<Action>, s': State, no: nat)
    requires QueueInv(s) && Reached(s, actions, s') && Told(t, s, no)
    ensures Told(TaleOf(t, s, actions, no), s', no)
    decreases actions
  {
    if actions != [] {
      QueueKeeps(s, actions[0]);
      StepTold(t, s, actions[0], no);
      RunTold(Tell(t, s, actions[0], no), Step(s, actions[0]), actions[1..], s', no);
    }
  }

  // Main result: whatever schedule a fresh queue and its worker have run, each popped job has been found
  // or not, once; if so, it has come to one outcome, unless it is still at work; and what it has sent is,
  // in order, what its engine has called back with, and then the end that goes with the outcome.
  lemma JobsAreTold(max: nat, actions: seq<Action>, s: State, no: nat)
    requires Reached(Start(max), actions, s) && no < |s.popped|
    ensures
      Honest(MessagesOf(s.sent, no), TaleOf(UNTOLD, Start(max), actions, no), no, s.popped[no].stream, Busy(s, no))
  {
    RunTold(UNTOLD, Start(max), actions, s, no);
  }

  // -------- the object --------
  // -------- the object --------
  // -------- the object --------

  class NodeJobQueue {
    const maxSize: nat
    var jobs: seq<Job>
    var running: bool

    ghost function Now(): Shared
      reads this
    {
      Shared(maxSize, jobs, running)
    }

    constructor (maxSize: nat)
      ensures Now() == Start(maxSize).q
    {
      this.maxSize, jobs, running := maxSize, [], true;
    }

    method Push(job: Job) returns (ok: bool)
      modifies this`jobs
      ensures (Now(), ok) == Put(old(Now()), job)
      ensures ok <==> old(running) && old(|jobs|) < maxSize
      ensures old(|jobs|) <= maxSize ==> |jobs| <= maxSize
    {
      if !running || |jobs| >= maxSize {
        return false;
      }
      jobs := jobs + [job];
      return true;
    }

    // wait_pop from where its wait returns; None when there is no job to be had any more
    method WaitPop() returns (job: Option<Job>)
      requires MayTake(Now())
      modifies this`jobs
      ensures (Now(), job) == Take(old(Now()))
      ensures job.Some? ==> [job.value] + jobs == old(jobs)
      ensures job.None? ==> !running && old(jobs) == [] == jobs
    {
      if jobs == [] {
        return None;
      }
      job := Some(jobs[0]);
      jobs := jobs[1..];
    }

    method Stop()
      modifies this`running
      ensures Now() == old(Now()).(running := false)
    {
      running := false;
    }
  }
}
