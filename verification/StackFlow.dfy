/** Sessions of the nodes: each is a task, a channel and a unit at the manager, under one number. */
module StackFlows {
  import opened Text
  import opened UnitManagers
  import PzmqData

  datatype Channel = Channel(outputUrl: string, inferenceUrl: string, pushUrl: string, workId: string, listening: bool)

  datatype Node = Node(
    name: string,                   // unit_name_
    max: nat,                       // max_sessions_
    channels: map<int, Channel>,    // llm_task_channel_
    tasks: map<int, string>)        // tasks_, with the work id that each was made for

  // One node and the manager, which is called by reliable remote calls
  datatype Local = Local(m: Manager, n: Node)

  // What the environment decides during a setup: whether the engine's stream is ready, whether the
  // subscription succeeds, whether the second look finds all sessions taken, and what the manager's
  // two port variables hold when no search sets them.
  datatype Luck = Luck(ready: bool, subscribed: bool, taken: bool, stray1: int, stray2: int)

  // -------- work ids --------

  const WORK_ID_NONE := -100

  function Find(s: string, c: char): (i: nat)
    ensures i <= |s| && (i < |s| ==> s[i] == c) && forall j :: 0 <= j < i ==> s[j] != c
  {
    if s == "" || s[0] == c then 0 else 1 + Find(s[1..], c)
  }

  // sample_get_work_id
  function WorkIdOf(number: int, name: string): string { name + "." + PrintInt(number) }

  // sample_get_work_id_num; None when stoi throws
  function WorkIdNum(workId: string): Option<int> {
    var dot := Find(workId, '.');
    if dot >= |workId| - 1 then Some(WORK_ID_NONE) else Stoi(workId[dot + 1..])
  }

  lemma WorkIdNumOfWorkId(name: string, number: nat)
    requires '.' !in name && number <= INT_MAX
    ensures WorkIdNum(WorkId(name, number)) == Some(number)
  {
    FindDot(name, Print(number));
    assert Print(number) == Print(number) + "";
    StoiOfPrint(number, "");
  }

  lemma FindDot(name: string, rest: string)
    requires '.' !in name
    ensures var w := name + "." + rest; Find(w, '.') == |name| && w[|name| + 1..] == rest
  {
    var w := name + "." + rest;
    assert w[|name|] == '.' && forall j :: 0 <= j < |name| ==> w[j] == name[j] && name[j] in name;
  }

  // The node reads the number of a session back from its work id.
  predicate ReadsBack(name: string, number: nat) { WorkIdNum(WorkId(name, number)) == Some(number) }

  // -------- the code, as functions; None when an exception ends the process --------

  datatype Reply = Reply(number: int, outputUrl: string, inferenceUrl: string)

  // rpc_allocate_unit's answer
  function Answer(u: Unit): string {
    PzmqData.SetParam(Print(u.number), PzmqData.SetParam(u.outputUrl, u.inferenceUrl))
  }

  // What sys_register_unit makes of it
  function Decode(answer: string, charIsSigned: bool): Option<Reply> {
    match PzmqData.GetParam(1, "", answer, charIsSigned)
    case None => None
    case Some(inner) =>
      match (PzmqData.GetParam(0, inner, answer, charIsSigned),
             PzmqData.GetParam(1, inner, answer, charIsSigned),
             PzmqData.GetParam(0, "", answer, charIsSigned))
      case (Some(outputUrl), Some(inferenceUrl), Some(number)) =>
        (match Stoi(number)
         case None => None
         case Some(value) => Some(Reply(value, outputUrl, inferenceUrl)))
      case _ => None
  }

  // sys_release_unit(int, string)
  function SysRelease(l: Local, number: int, workId: string): Option<Local> {
    if workId == "" then
      Some(Local(Release(l.m, WorkIdOf(number, l.n.name)), l.n.(channels := l.n.channels - {number})))
    else
      match WorkIdNum(workId)
      case None => None
      case Some(k) => Some(Local(Release(l.m, workId), l.n.(channels := l.n.channels - {k})))
  }

  // The node's own setup, and whether it accepts the session
  function NodeSetup(n: Node, workId: string, luck: Luck): Option<(Node, bool)> {
    if |n.tasks| >= n.max then Some((n, false))
    else
      match WorkIdNum(workId)
      case None => None
      case Some(k) =>
        if k !in n.channels then None
        else if !luck.ready || !luck.subscribed then Some((n, false))
        else if luck.taken then Some((n.(channels := n.channels[k := n.channels[k].(listening := false)]), false))
        else Some((
          n.(channels := n.channels[k := n.channels[k].(listening := true)], tasks := n.tasks[k := workId]),
          true))
  }

  // StackFlow::setup(zmq_url, raw)
  function Setup(l: Local, pushUrl: string, luck: Luck, charIsSigned: bool): Option<Local> {
    match Decode(Answer(UnitOf(l, luck)), charIsSigned)
    case None => None
    case Some(r) => SetupUnit(Local(ManagerOf(l, luck), l.n), r, pushUrl, luck)
  }

  // The unit that the manager allocates for it, and the manager then
  function UnitOf(l: Local, luck: Luck): Unit { UnitAny(l.m, l.n.name, luck.stray1, luck.stray2) }

  function ManagerOf(l: Local, luck: Luck): Manager { AllocateAny(l.m, l.n.name, luck.stray1, luck.stray2) }

  // The rest of it, once the manager has registered the unit
  function SetupUnit(l: Local, r: Reply, pushUrl: string, luck: Luck): Option<Local> {
    var workId := WorkIdOf(r.number, l.n.name);
    var n := l.n.(channels := l.n.channels[r.number := Channel(r.outputUrl, r.inferenceUrl, pushUrl, workId, false)]);
    match NodeSetup(n, workId, luck)
    case None => None
    case Some((n', accepted)) => if accepted then Some(Local(l.m, n')) else SysRelease(Local(l.m, n'), r.number, workId)
  }

  // The node's own exit, and whether it ended a session
  function NodeExit(n: Node, workId: string): Option<(Node, bool)> {
    match WorkIdNum(workId)
    case None => None
    case Some(k) =>
      if k !in n.tasks then Some((n, false))
      else if k !in n.channels then None
      else Some((n.(channels := n.channels[k := n.channels[k].(listening := false)], tasks := n.tasks - {k}), true))
  }

  function SetPushUrl(n: Node, workId: string, pushUrl: string): Node {
    match WorkIdNum(workId)
    case None => n
    case Some(k) =>
      if k in n.channels then n.(channels := n.channels[k := n.channels[k].(pushUrl := pushUrl)]) else n
  }

  // StackFlow::exit(zmq_url, raw)
  function Exit(l: Local, workId: string, pushUrl: string): Option<Local> {
    match NodeExit(SetPushUrl(l.n, workId, pushUrl), workId)
    case None => None
    case Some((n, ended)) => if ended then SysRelease(Local(l.m, n), -1, workId) else Some(Local(l.m, n))
  }

  // -------- what the three hold in common --------

  predicate Live(m: Manager, name: string, i: int) { i >= 0 && WorkId(name, i) in m.given }

  // The channel has the URLs that the manager keeps for the unit, and listens.
  predicate ChannelOf(m: Manager, n: Node, i: int)
    requires i in n.channels
  {
    var ch := n.channels[i];
    && i >= 0 && ch.workId == WorkId(n.name, i) && ch.listening && IsUnit(m, ch.workId)
    && m.sql[ch.workId].u.number == i
    && m.sql[ch.workId].u.outputUrl == ch.outputUrl && m.sql[ch.workId].u.inferenceUrl == ch.inferenceUrl
  }

  ghost predicate Sync(m: Manager, n: Node) {
    && |n.tasks| <= n.max && n.tasks.Keys == n.channels.Keys
    && (forall i {:trigger Live(m, n.name, i)} :: i in n.tasks <==> Live(m, n.name, i))
    && (forall i {:trigger ChannelOf(m, n, i)} :: i in n.channels ==> ChannelOf(m, n, i))
    && (forall i :: i in n.tasks ==> i >= 0 && n.tasks[i] == WorkId(n.name, i))
  }

  // The configuration keeps the first URL of the unit short enough for its length byte.
  predicate Short(m: Manager, name: string, charIsSigned: bool) {
    && m.start + |m.marks| <= 100_000
    && |m.format.pre| + |m.format.post| + |name| + 17 <= PzmqData.Limit(charIsSigned)
  }

  // The first URL of the next unit fits its length byte.
  predicate Fits(m: Manager, name: string, charIsSigned: bool) {
    |Registered(m, name).outputUrl| <= PzmqData.Limit(charIsSigned)
  }

  lemma ShortFits(m: Manager, name: string, charIsSigned: bool)
    requires Short(m, name, charIsSigned) && TwoFree(m.marks)
    ensures Fits(m, name, charIsSigned)
  {
    TwoFreeFound(m.marks);
    assert 100_000 == 10 * Pow10(4);
    PrintLength(m.start + FirstFree(m.marks), 4);
  }

  // What is decoded has the number of the unit, and both its URLs exactly when the first fits.
  lemma DecodeOfAnswer(u: Unit, charIsSigned: bool)
    requires u.number <= INT_MAX
    ensures
      var r := Decode(Answer(u), charIsSigned);
      && (r.Some? ==> r.value.number == u.number)
      && (r == Some(Reply(u.number, u.outputUrl, u.inferenceUrl)) <==> |u.outputUrl| <= PzmqData.Limit(charIsSigned))
  {
    PzmqData.RegisterReply(u.number, u.outputUrl, u.inferenceUrl, charIsSigned);
  }

  predicate Accepts(n: Node, luck: Luck) { |n.tasks| < n.max && luck.ready && luck.subscribed && !luck.taken }

  function Listening(m: Manager, n: Node, pushUrl: string): Channel {
    var u := Registered(m, n.name);
    Channel(u.outputUrl, u.inferenceUrl, pushUrl, WorkId(n.name, m.counter), true)
  }

  function Accepted(l: Local, pushUrl: string): Local
    requires TwoFree(l.m.marks)
  {
    var i := l.m.counter;
    Local(Allocate(l.m, l.n.name),
          l.n.(channels := l.n.channels[i := Listening(l.m, l.n, pushUrl)],
               tasks := l.n.tasks[i := WorkId(l.n.name, i)]))
  }

  function Rejected(l: Local): Local
    requires TwoFree(l.m.marks)
  {
    Local(Release(Allocate(l.m, l.n.name), WorkId(l.n.name, l.m.counter)), l.n)
  }

  lemma CounterIsFresh(l: Local)
    requires Inv(l.m) && Sync(l.m, l.n)
    ensures l.m.counter !in l.n.tasks && l.m.counter !in l.n.channels
  {
    FreshWorkId(l.m, l.n.name);
    assert !Live(l.m, l.n.name, l.m.counter);
  }

  // What setup comes to, whichever branch it takes
  lemma SetupEffect(l: Local, pushUrl: string, luck: Luck, charIsSigned: bool)
    requires Inv(l.m) && Sync(l.m, l.n) && TwoFree(l.m.marks) && l.m.counter <= INT_MAX
    requires ReadsBack(l.n.name, l.m.counter) && Fits(l.m, l.n.name, charIsSigned)
    ensures l.m.counter !in l.n.tasks
    ensures Setup(l, pushUrl, luck, charIsSigned) ==
      Some(if Accepts(l.n, luck) then Accepted(l, pushUrl) else Rejected(l))
  {
    var u := Registered(l.m, l.n.name);
    AllocateAnyIs(l.m, l.n.name, luck.stray1, luck.stray2);
    DecodeOfAnswer(u, charIsSigned);
    CounterIsFresh(l);
    SetupUnitEffect(Local(Allocate(l.m, l.n.name), l.n), Reply(l.m.counter, u.outputUrl, u.inferenceUrl),
                    WorkId(l.n.name, l.m.counter), pushUrl, luck);
  }

  lemma SetupUnitEffect(l: Local, r: Reply, w: string, pushUrl: string, luck: Luck)
    requires r.number !in l.n.channels && w != "" && WorkIdOf(r.number, l.n.name) == w && WorkIdNum(w) == Some(r.number)
    ensures
      SetupUnit(l, r, pushUrl, luck) == Some(
        if Accepts(l.n, luck) then
          Local(l.m, l.n.(channels := l.n.channels[r.number := Channel(r.outputUrl, r.inferenceUrl, pushUrl, w, true)],
                          tasks := l.n.tasks[r.number := w]))
        else Local(Release(l.m, w), l.n))
  {
    var ch := Channel(r.outputUrl, r.inferenceUrl, pushUrl, w, false);
    var channels := l.n.channels[r.number := ch];
    if Accepts(l.n, luck) {
      assert channels[r.number := ch.(listening := true)] == l.n.channels[r.number := ch.(listening := true)];
    } else {
      assert channels - {r.number} == l.n.channels;
      assert channels[r.number := ch.(listening := false)] == channels;
    }
  }

  // -------- setup --------

  // What an allocation adds for one name, and leaves for all
  lemma AllocatedLive(m: Manager, unit: string, name: string, i: int)
    requires Inv(m) && TwoFree(m.marks)
    ensures Live(Allocate(m, unit), name, i) <==> Live(m, name, i) || (name == unit && i == m.counter)
  {
    AllocateKeeps(m, unit);
    if i >= 0 && WorkId(name, i) == WorkId(unit, m.counter) {
      DottedInjective(name, i, unit, m.counter);
    }
  }

  // A channel of some node, after a change that leaves its unit alone
  lemma ChannelStays(m: Manager, m': Manager, n: Node, n': Node, i: int)
    requires Sync(m, n) && i in n.channels && i in n'.channels && n'.channels[i] == n.channels[i] && n'.name == n.name
    requires i >= 0
    requires var key := WorkId(n.name, i); key in m.sql && key in m'.sql && m'.sql[key] == m.sql[key]
    ensures ChannelOf(m', n', i)
  {
    assert ChannelOf(m, n, i);
  }

  lemma AcceptedChannel(l: Local, pushUrl: string, i: int)
    requires Inv(l.m) && Sync(l.m, l.n) && TwoFree(l.m.marks) && i in Accepted(l, pushUrl).n.channels
    ensures ChannelOf(Accepted(l, pushUrl).m, Accepted(l, pushUrl).n, i)
  {
    AllocateKeeps(l.m, l.n.name);
    if i != l.m.counter {
      assert Live(l.m, l.n.name, i);
      ChannelStays(l.m, Accepted(l, pushUrl).m, l.n, Accepted(l, pushUrl).n, i);
    }
  }

  lemma AcceptedSync(l: Local, pushUrl: string)
    requires Inv(l.m) && Sync(l.m, l.n) && TwoFree(l.m.marks) && |l.n.tasks| < l.n.max && l.m.counter !in l.n.tasks
    ensures var l' := Accepted(l, pushUrl); Inv(l'.m) && Sync(l'.m, l'.n)
  {
    var l' := Accepted(l, pushUrl);
    var name := l.n.name;
    AllocateKeepsInv(l.m, name);
    forall i ensures i in l'.n.tasks <==> Live(l'.m, name, i) {
      AllocatedLive(l.m, name, name, i);
    }
    forall i | i in l'.n.channels ensures ChannelOf(l'.m, l'.n, i) {
      AcceptedChannel(l, pushUrl, i);
    }
  }

  // Another manager in which the node's units are the same
  lemma SyncStays(m: Manager, m': Manager, n: Node)
    requires Sync(m, n)
    requires forall i :: Live(m', n.name, i) <==> Live(m, n.name, i)
    requires forall key :: key in m.given && key in m'.given ==>
      key in m.sql && key in m'.sql && m'.sql[key] == m.sql[key]
    ensures Sync(m', n)
  {
    forall i | i in n.channels ensures ChannelOf(m', n, i) {
      assert Live(m, n.name, i) && Live(m', n.name, i);
      ChannelStays(m, m', n, n, i);
    }
  }

  lemma RejectedSync(l: Local)
    requires Inv(l.m) && Sync(l.m, l.n) && TwoFree(l.m.marks)
    ensures var l' := Rejected(l); Inv(l'.m) && Sync(l'.m, l.n) && l'.m.given == l.m.given && l'.m.marks == l.m.marks
  {
    AllocateKeeps(l.m, l.n.name);
    ReleaseKeeps(Allocate(l.m, l.n.name), WorkId(l.n.name, l.m.counter));
    ReleaseUndoesAllocate(l.m, l.n.name);
    SyncStays(l.m, Rejected(l).m, l.n);
  }

  // A setup whose work id is not read back enters a channel that is no session's.
  lemma MisreadSetup(l: Local, r: Reply, pushUrl: string, luck: Luck)
    requires r.number !in l.n.channels && r.number !in l.n.tasks && r.number >= 0 && l.n.tasks.Keys == l.n.channels.Keys
    requires !ReadsBack(l.n.name, r.number)
    ensures
      var o := SetupUnit(l, r, pushUrl, luck);
      o.Some? ==> r.number in o.value.n.channels && r.number !in o.value.n.tasks
  {
    var w := WorkIdOf(r.number, l.n.name);
    assert w == WorkId(l.n.name, r.number) && w != "";
  }

  // A setup whose URLs are misread enters a channel that has not the unit's.
  lemma GarbledSetup(l: Local, r: Reply, pushUrl: string, luck: Luck, u: Unit)
    requires r.number == u.number && r != Reply(u.number, u.outputUrl, u.inferenceUrl)
    requires r.number !in l.n.channels && ReadsBack(l.n.name, r.number) && Accepts(l.n, luck)
    requires IsUnit(l.m, WorkId(l.n.name, u.number)) && l.m.sql[WorkId(l.n.name, u.number)].u == u
    ensures
      var o := SetupUnit(l, r, pushUrl, luck);
      o.Some? ==> !Sync(o.value.m, o.value.n)
  {
    var w := WorkId(l.n.name, r.number);
    SetupUnitEffect(l, r, w, pushUrl, luck);
    var o := SetupUnit(l, r, pushUrl, luck).value;
    assert r.number in o.n.channels && !ChannelOf(o.m, o.n, r.number);
  }

  // Exactly: a setup that finds two free ports keeps the three together if and only if the new number
  // is read back from its work id and, when the session is accepted, the first URL fits its length
  // byte.
  lemma SetupKeepsFree(l: Local, pushUrl: string, luck: Luck, charIsSigned: bool)
    requires Inv(l.m) && Sync(l.m, l.n) && TwoFree(l.m.marks) && l.m.counter <= INT_MAX
    ensures
      var r := Setup(l, pushUrl, luck, charIsSigned);
      var readsBack, fits := ReadsBack(l.n.name, l.m.counter), Fits(l.m, l.n.name, charIsSigned);
      && (readsBack && fits ==> r.Some?)
      && (r.Some? ==> (Sync(r.value.m, r.value.n) <==> readsBack && (Accepts(l.n, luck) ==> fits)))
      && (r.Some? && Sync(r.value.m, r.value.n) ==> Inv(r.value.m) && Gained(l, r.value, pushUrl, luck))
  {
    AllocateAnyIs(l.m, l.n.name, luck.stray1, luck.stray2);
    if ReadsBack(l.n.name, l.m.counter) && (Accepts(l.n, luck) ==> Fits(l.m, l.n.name, charIsSigned)) {
      SetupSucceeds(l, pushUrl, luck, charIsSigned);
    } else {
      SetupFails(l, pushUrl, luck, charIsSigned);
    }
  }

  lemma SetupSucceeds(l: Local, pushUrl: string, luck: Luck, charIsSigned: bool)
    requires Inv(l.m) && Sync(l.m, l.n) && TwoFree(l.m.marks) && l.m.counter <= INT_MAX
    requires ReadsBack(l.n.name, l.m.counter) && (Accepts(l.n, luck) ==> Fits(l.m, l.n.name, charIsSigned))
    ensures
      var r := Setup(l, pushUrl, luck, charIsSigned);
      && (Fits(l.m, l.n.name, charIsSigned) ==> r.Some?)
      && (r.Some? ==> Inv(r.value.m) && Sync(r.value.m, r.value.n) && Gained(l, r.value, pushUrl, luck))
  {
    AllocateAnyIs(l.m, l.n.name, luck.stray1, luck.stray2);
    SetupComesOut(l, pushUrl, luck);
    if Accepts(l.n, luck) {
      SetupEffect(l, pushUrl, luck, charIsSigned);
    } else {
      SetupAnyEffect(l, pushUrl, luck, charIsSigned);
    }
  }

  // A number that is not read back, or an accepted session whose URL does not fit, is entered wrongly.
  lemma SetupFails(l: Local, pushUrl: string, luck: Luck, charIsSigned: bool)
    requires Inv(l.m) && Sync(l.m, l.n) && l.m.counter <= INT_MAX
    requires ReadsBack(l.n.name, l.m.counter) ==>
      Accepts(l.n, luck) && |UnitOf(l, luck).outputUrl| > PzmqData.Limit(charIsSigned)
    ensures
      var r := Setup(l, pushUrl, luck, charIsSigned);
      r.Some? ==> !Sync(r.value.m, r.value.n)
  {
    var u, l1 := UnitOf(l, luck), Local(ManagerOf(l, luck), l.n);
    var d := Decode(Answer(u), charIsSigned);
    DecodeOfAnswer(u, charIsSigned);
    CounterIsFresh(l);
    EnteredUnit(l, luck);
    if d.Some? {
      if !ReadsBack(l.n.name, l.m.counter) {
        MisreadSetup(l1, d.value, pushUrl, luck);
      } else {
        GarbledSetup(l1, d.value, pushUrl, luck, u);
      }
    }
  }

  lemma EnteredUnit(l: Local, luck: Luck)
    ensures
      var m, id := ManagerOf(l, luck), WorkId(l.n.name, l.m.counter);
      IsUnit(m, id) && m.sql[id].u == UnitOf(l, luck)
  {
    assert |WorkId(l.n.name, l.m.counter) + OUT_PORT| > |WorkId(l.n.name, l.m.counter)|;
  }

  // What a setup that goes on comes to, with whatever ports
  lemma SetupAnyEffect(l: Local, pushUrl: string, luck: Luck, charIsSigned: bool)
    requires Inv(l.m) && Sync(l.m, l.n) && l.m.counter <= INT_MAX && ReadsBack(l.n.name, l.m.counter)
    ensures
      var r, id := Setup(l, pushUrl, luck, charIsSigned), WorkId(l.n.name, l.m.counter);
      && (|UnitOf(l, luck).outputUrl| <= PzmqData.Limit(charIsSigned) ==> r.Some?)
      && (r.Some? && Accepts(l.n, luck) ==> r.value.m == ManagerOf(l, luck))
      && (r.Some? && !Accepts(l.n, luck) ==> r.value == Local(Release(ManagerOf(l, luck), id), l.n))
  {
    var u, l1 := UnitOf(l, luck), Local(ManagerOf(l, luck), l.n);
    var d := Decode(Answer(u), charIsSigned);
    DecodeOfAnswer(u, charIsSigned);
    CounterIsFresh(l);
    if d.Some? {
      SetupUnitEffect(l1, d.value, WorkId(l.n.name, l.m.counter), pushUrl, luck);
    }
  }

  // A setup that finds no two free ports never keeps the three together if it accepts the session, and
  // if it rejects it, keeps them exactly when the ports that it gives back are no unit's.
  lemma SetupShort(l: Local, pushUrl: string, luck: Luck, charIsSigned: bool)
    requires Inv(l.m) && Sync(l.m, l.n) && !TwoFree(l.m.marks) && l.m.counter <= INT_MAX
    requires ReadsBack(l.n.name, l.m.counter)
    ensures
      var r := Setup(l, pushUrl, luck, charIsSigned);
      r.Some? ==>
        && (Inv(r.value.m) <==> !Accepts(l.n, luck) && Harmless(l.m, luck.stray1, luck.stray2))
        && (Inv(r.value.m) ==> Sync(r.value.m, r.value.n) && Gained(l, r.value, pushUrl, luck))
  {
    SetupAnyEffect(l, pushUrl, luck, charIsSigned);
    AllocateIff(l.m, l.n.name, luck.stray1, luck.stray2);
    ReleaseUndoesIff(l.m, l.n.name, luck.stray1, luck.stray2);
    if !Accepts(l.n, luck) {
      SyncStays(l.m, Release(ManagerOf(l, luck), WorkId(l.n.name, l.m.counter)), l.n);
    }
  }

  // All that a setup needs to keep the manager in order and the node together with it
  predicate Orderly(l: Local, luck: Luck, charIsSigned: bool) {
    && ReadsBack(l.n.name, l.m.counter)
    && if Accepts(l.n, luck) then TwoFree(l.m.marks) && Fits(l.m, l.n.name, charIsSigned)
       else Harmless(l.m, luck.stray1, luck.stray2)
  }

  // Main result, exactly: a setup that goes through keeps the three together if and only if the new
  // number is read back from its work id and, when the session is accepted, two ports are free and the
  // first URL fits its length byte; when it is rejected, the ports that are given back are no unit's.
  // Then it gains exactly one session, under a new number, when nothing stands in its way; otherwise,
  // whichever step fails, no session, channel, unit or port is gained or lost.
  lemma SetupKeeps(l: Local, pushUrl: string, luck: Luck, charIsSigned: bool)
    requires Inv(l.m) && Sync(l.m, l.n) && l.m.counter <= INT_MAX
    ensures
      var r := Setup(l, pushUrl, luck, charIsSigned);
      && (ReadsBack(l.n.name, l.m.counter) && |UnitOf(l, luck).outputUrl| <= PzmqData.Limit(charIsSigned) ==> r.Some?)
      && (r.Some? ==>
            (Inv(r.value.m) && Sync(r.value.m, r.value.n) <==> Orderly(l, luck, charIsSigned))
            && (Orderly(l, luck, charIsSigned) ==> Gained(l, r.value, pushUrl, luck)))
  {
    if !ReadsBack(l.n.name, l.m.counter) {
      SetupFails(l, pushUrl, luck, charIsSigned);
    } else if TwoFree(l.m.marks) {
      AllocateAnyIs(l.m, l.n.name, luck.stray1, luck.stray2);
      TwoFreeIsHarmless(l.m, luck.stray1, luck.stray2);
      SetupKeepsFree(l, pushUrl, luck, charIsSigned);
    } else {
      SetupAnyEffect(l, pushUrl, luck, charIsSigned);
      SetupShort(l, pushUrl, luck, charIsSigned);
    }
  }

  // The session that a setup has gained, or nothing at all
  predicate Gained(l: Local, l': Local, pushUrl: string, luck: Luck) {
    var i := l.m.counter;
    if Accepts(l.n, luck) then
      && i !in l.n.tasks && l'.n.tasks == l.n.tasks[i := WorkId(l.n.name, i)]
      && l'.n.channels == l.n.channels[i := Listening(l.m, l.n, pushUrl)]
    else
      l'.n == l.n && l'.m.given == l.m.given && l'.m.marks == l.m.marks
  }

  lemma SetupComesOut(l: Local, pushUrl: string, luck: Luck)
    requires Inv(l.m) && Sync(l.m, l.n) && TwoFree(l.m.marks)
    ensures
      var l' := if Accepts(l.n, luck) then Accepted(l, pushUrl) else Rejected(l);
      Inv(l'.m) && Sync(l'.m, l'.n) && Gained(l, l', pushUrl, luck)
  {
    CounterIsFresh(l);
    if Accepts(l.n, luck) {
      AcceptedSync(l, pushUrl);
    } else {
      RejectedSync(l);
    }
  }

  // -------- exit --------

  // What exit comes to: it ends the session of the number, but releases the unit of the text.
  lemma ExitEffect(l: Local, workId: string, pushUrl: string)
    requires Sync(l.m, l.n)
    ensures
      match WorkIdNum(workId)
      case None => Exit(l, workId, pushUrl) == None
      case Some(k) =>
        Exit(l, workId, pushUrl) == Some(
          if k in l.n.tasks then
            Local(Release(l.m, workId), l.n.(channels := l.n.channels - {k}, tasks := l.n.tasks - {k}))
          else l)
  {
    match WorkIdNum(workId) {
      case None =>
      case Some(k) =>
        if k in l.n.tasks {
          assert k in l.n.channels && ChannelOf(l.m, l.n, k);
          assert WorkIdNum("") == Some(WORK_ID_NONE);
          var n := SetPushUrl(l.n, workId, pushUrl);
          var (n', ended) := NodeExit(n, workId).value;
          assert n'.channels - {k} == l.n.channels - {k};
        }
    }
  }

  // A channel without a task, which no session in order has, only gets the push URL of the exit.
  lemma ExitPushes(l: Local, workId: string, pushUrl: string, k: int)
    requires WorkIdNum(workId) == Some(k) && k in l.n.channels && k !in l.n.tasks
    ensures
      var r := Exit(l, workId, pushUrl);
      && r.Some? && r.value.m == l.m && r.value.n.tasks == l.n.tasks
      && r.value.n.channels.Keys == l.n.channels.Keys && r.value.n.channels[k].pushUrl == pushUrl
      && forall i :: i in l.n.channels && i != k ==> r.value.n.channels[i] == l.n.channels[i]
  {
  }

  // The text names the session by the id that was issued for it, or names no session of the node.
  predicate NamesIssued(n: Node, workId: string) {
    match WorkIdNum(workId)
    case None => false
    case Some(k) => k in n.tasks ==> workId == WorkIdOf(k, n.name)
  }

  lemma ReleasedLive(m: Manager, unit: string, number: nat, name: string, i: int)
    requires Inv(m) && Live(m, unit, number)
    ensures Live(Release(m, WorkId(unit, number)), name, i) <==> Live(m, name, i) && !(name == unit && i == number)
  {
    ReleaseKeeps(m, WorkId(unit, number));
    if i >= 0 && WorkId(name, i) == WorkId(unit, number) {
      DottedInjective(name, i, unit, number);
    }
  }

  lemma {:induction false} FewerTasks(tasks: map<int, string>, k: int)
    requires k in tasks
    ensures |tasks - {k}| == |tasks| - 1
  {
    assert (tasks - {k}).Keys == tasks.Keys - {k};
  }

  lemma EndedSync(l: Local, k: int)
    requires Inv(l.m) && Sync(l.m, l.n) && k in l.n.tasks
    ensures
      k >= 0 &&
      var m := Release(l.m, WorkId(l.n.name, k));
      Inv(m) && Sync(m, l.n.(channels := l.n.channels - {k}, tasks := l.n.tasks - {k}))
  {
    assert Live(l.m, l.n.name, k);
    var m := Release(l.m, WorkId(l.n.name, k));
    var n := l.n.(channels := l.n.channels - {k}, tasks := l.n.tasks - {k});
    ReleaseKeeps(l.m, WorkId(l.n.name, k));
    FewerTasks(l.n.tasks, k);
    forall i ensures i in n.tasks <==> Live(m, n.name, i) {
      ReleasedLive(l.m, n.name, k, n.name, i);
      assert i in l.n.tasks <==> Live(l.m, n.name, i);
    }
    forall i | i in n.channels ensures ChannelOf(m, n, i) {
      assert i in n.tasks && Live(m, n.name, i);
      ChannelStays(l.m, m, l.n, n, i);
    }
  }

  // Main result, exactly: exit goes through if and only if the number in the text can be read, and
  // keeps task, channel and unit together if and only if the text does not merely resemble the id
  // that was issued. Then the session, if there is one, is gone from all three.
  lemma ExitKeeps(l: Local, workId: string, pushUrl: string)
    requires Inv(l.m) && Sync(l.m, l.n)
    ensures
      var r := Exit(l, workId, pushUrl);
      && (r.Some? <==> WorkIdNum(workId).Some?)
      && (r.Some? ==>
            (Inv(r.value.m)
            && (Sync(r.value.m, r.value.n) <==> NamesIssued(l.n, workId))
            && r.value.n.tasks == l.n.tasks - {WorkIdNum(workId).value}))
  {
    ExitEffect(l, workId, pushUrl);
    ReleaseKeeps(l.m, workId);
    match WorkIdNum(workId) {
      case None =>
      case Some(k) =>
        if k !in l.n.tasks {
          assert l.n.tasks - {k} == l.n.tasks;
        } else {
          assert Live(l.m, l.n.name, k);
          if workId == WorkId(l.n.name, k) {
            EndedSync(l, k);
          } else {
            var m := Release(l.m, workId);
            assert Live(m, l.n.name, k) && k !in (l.n.tasks - {k});
          }
        }
    }
  }

  // The other case, once: ending a session by another spelling of its number leaves its unit, and
  // the unit's two ports, at the manager, where the node can no longer name them.
  lemma ExitLeaks(l: Local, number: nat, pushUrl: string)
    requires Inv(l.m) && Sync(l.m, l.n) && number in l.n.tasks && number <= INT_MAX && '.' !in l.n.name
    ensures
      var r := Exit(l, l.n.name + ".0" + Print(number), pushUrl);
      && r.Some? && number !in r.value.n.tasks && number !in r.value.n.channels
      && r.value.m == l.m && Live(l.m, l.n.name, number)
  {
    var w := l.n.name + ".0" + Print(number);
    WorkIdNumOfPadded(l.n.name, number);
    if w in l.m.given {
      assert UnitInv(l.m, w);
      PaddedIsNoWorkId(l.n.name, number, l.m.given[w].name, l.m.sql[w].u.number);
    }
    ExitEffect(l, w, pushUrl);
    assert Live(l.m, l.n.name, number);
  }

  lemma PaddedIsNoWorkId(name: string, number: nat, unit: string, i: nat)
    ensures name + ".0" + Print(number) != WorkId(unit, i)
  {
    var s, t := name + ".0" + Print(number), WorkId(unit, i);
    assert s[|name|] == '.' && s[|name| + 1] == '0' && forall j :: |name| < j < |s| ==> IsDigit(s[j]);
    assert t[|unit|] == '.' && forall j :: |unit| < j < |t| ==> t[j] == Print(i)[j - |unit| - 1];
    assert |name| == |unit| ==> t[|unit| + 1] == Print(i)[0];
    assert Print(i)[0] == '0' ==> |Print(i)| == 1;
  }

  lemma WorkIdNumOfPadded(name: string, number: nat)
    requires '.' !in name && number <= INT_MAX
    ensures WorkIdNum(name + ".0" + Print(number)) == Some(number)
  {
    StoiOfPadded(number);
    WorkIdNumBehindDot(name, Print(number), number);
  }

  lemma WorkIdNumBehindDot(name: string, digits: string, number: int)
    requires '.' !in name && digits != "" && Stoi("0" + digits) == Some(number)
    ensures WorkIdNum(name + ".0" + digits) == Some(number)
  {
    WorkIdNumDotted(name, "0" + digits);
    Regroup(name, digits);
  }

  lemma Regroup(name: string, digits: string)
    ensures name + ".0" + digits == name + "." + ("0" + digits)
  {
    assert ".0" == "." + "0";
  }

  lemma WorkIdNumDotted(name: string, rest: string)
    requires '.' !in name && rest != ""
    ensures WorkIdNum(name + "." + rest) == Stoi(rest)
  {
    FindDot(name, rest);
  }

  lemma StoiOfPadded(number: nat)
    requires number <= INT_MAX
    ensures Stoi("0" + Print(number)) == Some(number)
  {
    var t := "0" + Print(number);
    assert t[0] == '0' && forall i :: 0 <= i < |t| ==> IsDigit(t[i]);
    RunOf(t, "", 10);
    assert t + "" == t && t[..|t|] == t;
    ValueOfPadded(Print(number));
    ValueOfPrint(number);
  }

  lemma {:induction false} ValueOfPadded(s: string)
    ensures Value("0" + s, 10) == Value(s, 10)
  {
    var t := "0" + s;
    if s == "" {
      assert t[..0] == "" && Value("", 10) == 0;
    } else {
      assert t[..|t| - 1] == "0" + s[..|s| - 1];
      ValueOfPadded(s[..|s| - 1]);
    }
  }

  // Entering the channel beforehand makes no difference.
  lemma SetupUnitAgain(l: Local, r: Reply, pushUrl: string, luck: Luck)
    ensures
      var channel := Channel(r.outputUrl, r.inferenceUrl, "", "", false);
      SetupUnit(Local(l.m, l.n.(channels := l.n.channels[r.number := channel])), r, pushUrl, luck)
        == SetupUnit(l, r, pushUrl, luck)
  {
    var channel := Channel(r.outputUrl, r.inferenceUrl, pushUrl, WorkIdOf(r.number, l.n.name), false);
    var before := Channel(r.outputUrl, r.inferenceUrl, "", "", false);
    assert l.n.channels[r.number := before][r.number := channel] == l.n.channels[r.number := channel];
  }

  // -------- several nodes, and whole runs --------

  datatype System = System(m: Manager, nodes: map<string, Node>)

  datatype Event =
    | SetupEvent(name: string, pushUrl: string, luck: Luck)
    | ExitEvent(name: string, pushUrl: string, workId: string)

  ghost predicate SysInv(s: System) {
    && Inv(s.m)
    && forall name {:trigger name in s.nodes} :: name in s.nodes ==>
        s.nodes[name].name == name && Sync(s.m, s.nodes[name])
  }

  // What is asked of an event: it is for a known node; a setup finds two free ports, a URL that fits,
  // and a number that is read back; an exit names an id in the spelling that was issued.
  predicate Legal(s: System, e: Event, charIsSigned: bool) {
    && e.name in s.nodes
    && match e {
         case SetupEvent(name, _, _) =>
           && TwoFree(s.m.marks) && s.m.counter <= INT_MAX
           && ReadsBack(name, s.m.counter) && Fits(s.m, name, charIsSigned)
         case ExitEvent(name, _, workId) => NamesIssued(s.nodes[name], workId)
       }
  }

  function StepLocal(l: Local, e: Event, charIsSigned: bool): Option<Local> {
    match e
    case SetupEvent(_, pushUrl, luck) => Setup(l, pushUrl, luck, charIsSigned)
    case ExitEvent(_, pushUrl, workId) => Exit(l, workId, pushUrl)
  }

  function Step(s: System, e: Event, charIsSigned: bool): Option<System>
    requires Legal(s, e, charIsSigned)
  {
    match StepLocal(Local(s.m, s.nodes[e.name]), e, charIsSigned)
    case None => None
    case Some(l) => Some(System(l.m, s.nodes[e.name := l.n]))
  }

  // Main result: no event on one node disturbs another, and all of them stay in step.
  lemma StepKeeps(s: System, e: Event, charIsSigned: bool)
    requires SysInv(s) && Legal(s, e, charIsSigned)
    ensures
      var r := Step(s, e, charIsSigned);
      && r.Some? && SysInv(r.value) && r.value.nodes.Keys == s.nodes.Keys
      && forall name :: name in s.nodes && name != e.name ==> r.value.nodes[name] == s.nodes[name]
  {
    var l := StepTo(s, e, charIsSigned);
    Replace(s, e.name, l);
  }

  lemma StepTo(s: System, e: Event, charIsSigned: bool) returns (l: Local)
    requires SysInv(s) && Legal(s, e, charIsSigned)
    ensures Step(s, e, charIsSigned) == Some(System(l.m, s.nodes[e.name := l.n]))
    ensures Inv(l.m) && Sync(l.m, l.n) && l.n.name == e.name
    ensures forall name :: name in s.nodes && name != e.name ==> Sync(l.m, s.nodes[name])
  {
    var before := Local(s.m, s.nodes[e.name]);
    LocalKeeps(before, e, charIsSigned);
    var o := StepLocal(before, e, charIsSigned);
    AllOthersKeep(s, before, e, charIsSigned, o);
    l := o.value;
  }

  lemma AllOthersKeep(s: System, l: Local, e: Event, charIsSigned: bool, o: Option<Local>)
    requires SysInv(s) && Legal(s, e, charIsSigned) && l == Local(s.m, s.nodes[e.name])
    requires o == StepLocal(l, e, charIsSigned) && o.Some?
    ensures forall name :: name in s.nodes && name != e.name ==> Sync(o.value.m, s.nodes[name])
  {
    forall name | name in s.nodes && name != e.name ensures Sync(o.value.m, s.nodes[name]) {
      OthersKeep(l, e, charIsSigned, s.nodes[name]);
    }
  }

  lemma Replace(s: System, name: string, l: Local)
    requires SysInv(s) && name in s.nodes && Inv(l.m) && Sync(l.m, l.n) && l.n.name == name
    requires forall other :: other in s.nodes && other != name ==> Sync(l.m, s.nodes[other])
    ensures SysInv(System(l.m, s.nodes[name := l.n])) && s.nodes[name := l.n].Keys == s.nodes.Keys
  {
    var s' := System(l.m, s.nodes[name := l.n]);
    forall other | other in s'.nodes ensures s'.nodes[other].name == other && Sync(s'.m, s'.nodes[other]) {
      assert other in s.nodes;
    }
  }

  // What the configuration has to see to: a setup of a unit without a dot in its name and with short
  // enough URLs is legal while two ports are free.
  lemma ShortIsLegal(s: System, name: string, pushUrl: string, luck: Luck, charIsSigned: bool)
    requires name in s.nodes && TwoFree(s.m.marks) && s.m.counter <= INT_MAX
    requires '.' !in name && Short(s.m, name, charIsSigned)
    ensures Legal(s, SetupEvent(name, pushUrl, luck), charIsSigned)
  {
    WorkIdNumOfWorkId(name, s.m.counter);
    ShortFits(s.m, name, charIsSigned);
  }

  lemma LocalKeeps(l: Local, e: Event, charIsSigned: bool)
    requires Inv(l.m) && Sync(l.m, l.n) && Legal(System(l.m, map[e.name := l.n]), e, charIsSigned) && l.n.name == e.name
    ensures
      var r := StepLocal(l, e, charIsSigned);
      r.Some? && Inv(r.value.m) && Sync(r.value.m, r.value.n) && r.value.n.name == l.n.name
  {
    match e {
      case SetupEvent(name, pushUrl, luck) =>
        SetupEffect(l, pushUrl, luck, charIsSigned);
        SetupComesOut(l, pushUrl, luck);
      case ExitEvent(_, pushUrl, workId) =>
        ExitKeeps(l, workId, pushUrl);
        ExitEffect(l, workId, pushUrl);
    }
  }

  lemma OthersKeep(l: Local, e: Event, charIsSigned: bool, other: Node)
    requires Inv(l.m) && Sync(l.m, l.n) && Legal(System(l.m, map[e.name := l.n]), e, charIsSigned) && l.n.name == e.name
    requires Sync(l.m, other) && other.name != l.n.name
    ensures StepLocal(l, e, charIsSigned).Some? ==> Sync(StepLocal(l, e, charIsSigned).value.m, other)
  {
    match e {
      case SetupEvent(name, pushUrl, luck) =>
        SetupEffect(l, pushUrl, luck, charIsSigned);
        AllocatedOthers(l, other);
        RejectedOthers(l, other);
      case ExitEvent(_, pushUrl, workId) =>
        ExitEffect(l, workId, pushUrl);
        if WorkIdNum(workId).Some? && WorkIdNum(workId).value in l.n.tasks {
          ReleasedOthers(l, WorkIdNum(workId).value, other);
        }
    }
  }

  lemma AllocatedOthers(l: Local, other: Node)
    requires Inv(l.m) && TwoFree(l.m.marks) && Sync(l.m, other) && other.name != l.n.name
    ensures Sync(Allocate(l.m, l.n.name), other)
  {
    AllocateKeeps(l.m, l.n.name);
    forall i ensures Live(Allocate(l.m, l.n.name), other.name, i) <==> Live(l.m, other.name, i) {
      AllocatedLive(l.m, l.n.name, other.name, i);
    }
    SyncStays(l.m, Allocate(l.m, l.n.name), other);
  }

  lemma RejectedOthers(l: Local, other: Node)
    requires Inv(l.m) && TwoFree(l.m.marks) && Sync(l.m, other)
    ensures Sync(Rejected(l).m, other)
  {
    ReleaseUndoesAllocate(l.m, l.n.name);
    SyncStays(l.m, Rejected(l).m, other);
  }

  lemma ReleasedOthers(l: Local, k: int, other: Node)
    requires Inv(l.m) && Sync(l.m, l.n) && k in l.n.tasks && Sync(l.m, other) && other.name != l.n.name
    ensures k >= 0 && Sync(Release(l.m, WorkId(l.n.name, k)), other)
  {
    assert Live(l.m, l.n.name, k);
    var m := Release(l.m, WorkId(l.n.name, k));
    ReleaseKeeps(l.m, WorkId(l.n.name, k));
    forall i ensures Live(m, other.name, i) <==> Live(l.m, other.name, i) {
      ReleasedLive(l.m, l.n.name, k, other.name, i);
    }
    SyncStays(l.m, m, other);
  }

  // Each event is legal where it happens.
  predicate LegalRun(s: System, events: seq<Event>, charIsSigned: bool)
    decreases events
  {
    events == [] || (Legal(s, events[0], charIsSigned)
                     && (var r := Step(s, events[0], charIsSigned);
                         r.Some? ==> LegalRun(r.value, events[1..], charIsSigned)))
  }

  function Run(s: System, events: seq<Event>, charIsSigned: bool): Option<System>
    requires LegalRun(s, events, charIsSigned)
    decreases events
  {
    if events == [] then Some(s)
    else
      match Step(s, events[0], charIsSigned)
      case None => None
      case Some(s') => Run(s', events[1..], charIsSigned)
  }

  // A manager that has no unit, and nodes that have no session
  predicate Fresh(s: System) {
    && GoodFormat(s.m.format) && s.m.given == map[] && (forall i :: 0 <= i < |s.m.marks| ==> !s.m.marks[i])
    && (forall key :: key in s.m.sql ==> !s.m.sql[key].UnitPtr?)
    && forall name :: name in s.nodes ==>
         s.nodes[name].name == name && s.nodes[name].tasks == map[] && s.nodes[name].channels == map[]
  }

  lemma FreshInv(s: System)
    requires Fresh(s)
    ensures SysInv(s)
  {
    forall name | name in s.nodes ensures Sync(s.m, s.nodes[name]) {
      assert forall i :: !Live(s.m, name, i);
    }
  }

  // Main result: after any run from there, each node's tasks, channels and units are the same
  // sessions, never more than its limit, and two ports are marked for every unit that is live.
  lemma RunFromFresh(s: System, events: seq<Event>, charIsSigned: bool)
    requires Fresh(s) && LegalRun(s, events, charIsSigned)
    ensures
      var r := Run(s, events, charIsSigned);
      r.Some? && SysInv(r.value) && |Marked(r.value.m.marks)| == 2 * |r.value.m.given|
  {
    FreshInv(s);
    RunKeeps(s, events, charIsSigned);
  }

  // The same from any state in which they are together
  lemma {:induction false} RunKeeps(s: System, events: seq<Event>, charIsSigned: bool)
    requires SysInv(s) && LegalRun(s, events, charIsSigned)
    ensures
      var r := Run(s, events, charIsSigned);
      r.Some? && SysInv(r.value) && |Marked(r.value.m.marks)| == 2 * |r.value.m.given|
    decreases events
  {
    if events == [] {
      PortsConserved(s.m);
    } else {
      StepKeeps(s, events[0], charIsSigned);
      RunKeeps(Step(s, events[0], charIsSigned).value, events[1..], charIsSigned);
    }
  }

  // -------- the object --------

  class StackFlow {
    const unitName: string
    const maxSessions: nat
    var channels: map<int, Channel>
    var tasks: map<int, string>
    const sys: UnitManager

    ghost function Here(): Node
      reads this
    {
      Node(unitName, maxSessions, channels, tasks)
    }

    ghost function Now(): Local
      reads this, sys, sys.portList
    {
      Local(sys.Now(), Here())
    }

    constructor (unitName: string, maxSessions: nat, sys: UnitManager)
      ensures this.sys == sys && Here() == Node(unitName, maxSessions, map[], map[])
    {
      this.unitName, this.maxSessions, this.sys := unitName, maxSessions, sys;
      channels, tasks := map[], map[];
    }

    // StackFlow::sys_register_unit
    method SysRegisterUnit(charIsSigned: bool, stray1: int, stray2: int) returns (reply: Option<Reply>)
      modifies this`channels, sys, sys.portList
      ensures sys.Now() == AllocateAny(old(sys.Now()), unitName, stray1, stray2)
      ensures reply == Decode(Answer(UnitAny(old(sys.Now()), unitName, stray1, stray2)), charIsSigned)
      ensures reply.None? ==> channels == old(channels)
      ensures reply.Some? ==>
        var r := reply.value;
        channels == old(channels)[r.number := Channel(r.outputUrl, r.inferenceUrl, "", "", false)]
    {
      var _, u := sys.AllocateUnit(unitName, stray1, stray2);
      reply := Decode(Answer(u), charIsSigned);
      if reply.Some? {
        var r := reply.value;
        channels := channels[r.number := Channel(r.outputUrl, r.inferenceUrl, "", "", false)];
      }
    }

    // StackFlow::sys_release_unit; not ok when it throws
    method SysReleaseUnit(number: int, workId: string) returns (ok: bool)
      modifies this`channels, sys, sys.portList
      ensures ok == SysRelease(old(Now()), number, workId).Some?
      ensures Now() == if ok then SysRelease(old(Now()), number, workId).value else old(Now())
      ensures Inv(old(sys.Now())) ==> Inv(sys.Now())
    {
      var key, k := workId, number;
      if workId == "" {
        key := WorkIdOf(number, unitName);
      } else {
        var parsed := WorkIdNum(workId);
        if parsed.None? {
          return false;
        }
        k := parsed.value;
      }
      var _ := sys.ReleaseUnit(key);
      channels := channels - {k};
      return true;
    }

    // The node's setup; None when it throws
    method SetupTask(workId: string, luck: Luck) returns (accepted: Option<bool>)
      modifies this`channels, this`tasks
      ensures
        match NodeSetup(old(Here()), workId, luck)
        case None => accepted == None && Here() == old(Here())
        case Some((n, ok)) => accepted == Some(ok) && Here() == n
    {
      if |tasks| >= maxSessions {
        return Some(false);
      }
      var parsed := WorkIdNum(workId);
      if parsed.None? || parsed.value !in channels {
        return None;
      }
      var k := parsed.value;
      if !luck.ready || !luck.subscribed {
        return Some(false);
      }
      channels := channels[k := channels[k].(listening := true)];
      if luck.taken {
        channels := channels[k := channels[k].(listening := false)];
        return Some(false);
      }
      tasks := tasks[k := workId];
      return Some(true);
    }

    // StackFlow::setup
    method SetupSession(pushUrl: string, luck: Luck, charIsSigned: bool) returns (ok: bool)
      modifies this`channels, this`tasks, sys, sys.portList
      ensures ok == Setup(old(Now()), pushUrl, luck, charIsSigned).Some?
      ensures ok ==> Now() == Setup(old(Now()), pushUrl, luck, charIsSigned).value
    {
      ghost var before := Now();
      var reply := SysRegisterUnit(charIsSigned, luck.stray1, luck.stray2);
      if reply.None? {
        return false;
      }
      ok := SetupRegistered(reply.value, pushUrl, luck);
      SetupUnitAgain(Local(ManagerOf(before, luck), before.n), reply.value, pushUrl, luck);
    }

    // The part of it that follows the registration
    method SetupRegistered(r: Reply, pushUrl: string, luck: Luck) returns (ok: bool)
      requires r.number in channels
      requires channels[r.number] == Channel(r.outputUrl, r.inferenceUrl, "", "", false)
      modifies this`channels, this`tasks, sys, sys.portList
      ensures ok == SetupUnit(old(Now()), r, pushUrl, luck).Some?
      ensures ok ==> Now() == SetupUnit(old(Now()), r, pushUrl, luck).value
    {
      var workId := WorkIdOf(r.number, unitName);
      channels := channels[r.number := channels[r.number].(pushUrl := pushUrl, workId := workId)];
      var accepted := SetupTask(workId, luck);
      if accepted.None? {
        return false;
      }
      ok := true;
      if !accepted.value {
        ok := SysReleaseUnit(r.number, workId);
      }
    }

    // The node's exit; None when it throws
    method ExitTask(workId: string) returns (ended: Option<bool>)
      modifies this`channels, this`tasks
      ensures
        match NodeExit(old(Here()), workId)
        case None => ended == None
        case Some((n, ok)) => ended == Some(ok) && Here() == n
    {
      var parsed := WorkIdNum(workId);
      if parsed.None? {
        return None;
      }
      var k := parsed.value;
      if k !in tasks {
        return Some(false);
      }
      tasks := tasks - {k};
      if k !in channels {
        return None;
      }
      channels := channels[k := channels[k].(listening := false)];
      return Some(true);
    }

    // StackFlow::exit
    method ExitSession(workId: string, pushUrl: string) returns (ok: bool)
      modifies this`channels, this`tasks, sys, sys.portList
      ensures ok == Exit(old(Now()), workId, pushUrl).Some?
      ensures ok ==> Now() == Exit(old(Now()), workId, pushUrl).value
    {
      var parsed := WorkIdNum(workId);
      if parsed.Some? && parsed.value in channels {
        channels := channels[parsed.value := channels[parsed.value].(pushUrl := pushUrl)];
      }
      var ended := ExitTask(workId);
      if ended.None? {
        return false;
      }
      ok := true;
      if ended.value {
        ok := SysReleaseUnit(-1, workId);
      }
    }
  }
}
