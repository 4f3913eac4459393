/** The unit manager's registry: work ids, and two ports for every unit that is registered. */
module UnitManagers {
  import opened Text

  datatype Unit = Unit(number: nat, outputUrl: string, inferenceUrl: string)

  // What key_sql holds under a key
  datatype Entry = UnitPtr(u: Unit) | Str(s: string) | Num(n: int)

  // Two places of port_list, and the name of the unit they were given to
  datatype Given = Given(first: int, second: int, name: string)

  // zmq_s_format, around its %i
  datatype Format = Format(pre: string, post: string)

  datatype Manager = Manager(
    format: Format,
    counter: nat,                    // work_id_number_counter
    start: nat,                      // port_list_start
    marks: seq<bool>,                // port_list
    sql: map<string, Entry>,         // key_sql
    given: map<string, Given>)       // what each unit was given; the code does not store this, and
                                     // scans the ports from the URLs when it needs them

  // -------- URLs --------

  predicate Contains(s: string, t: string) { t <= s || (s != "" && Contains(s[1..], t)) }

  function Suffix(f: Format, unit: string, kind: string): string {
    if Contains(f.pre + "%i" + f.post, "sock") then f.post + "." + unit + "." + kind else f.post
  }

  // sprintf of the format, extended by unit and kind when it names a socket file
  function Url(f: Format, port: int, unit: string, kind: string): string {
    f.pre + PrintInt(port) + Suffix(f, unit, kind)
  }

  // sscanf of a URL by the format
  function ScanUrl(f: Format, url: string): Option<int> {
    if f.pre <= url then ScanI(url[|f.pre|..]) else None
  }

  // A configured format whose number can be scanned back: what is printed after it does not read on.
  predicate GoodFormat(f: Format) {
    f.post == "" || (!IsDigit(f.post[0]) && f.post[0] != 'x' && f.post[0] != 'X')
  }

  lemma ScanUrlOfUrl(f: Format, port: int, unit: string, kind: string)
    requires GoodFormat(f)
    ensures ScanUrl(f, Url(f, port, unit, kind)) == Some(port)
  {
    var url := Url(f, port, unit, kind);
    assert url[|f.pre|..] == PrintInt(port) + Suffix(f, unit, kind);
    ScanIOfPrintInt(port, Suffix(f, unit, kind));
  }

  // URLs of socket files tell the port, and the unit and the kind: no two of these have one in common.
  lemma UrlTells(f: Format, p: int, unit: string, kind: string, q: int, unit': string, kind': string)
    requires GoodFormat(f) && Contains(f.pre + "%i" + f.post, "sock")
    requires Url(f, p, unit, kind) == Url(f, q, unit', kind')
    ensures p == q && unit + "." + kind == unit' + "." + kind'
  {
    UrlTellsPort(f, p, unit, kind, q, unit', kind');
    SocketUrl(f, p, unit, kind);
    SocketUrl(f, p, unit', kind');
    SameRest(f.pre + PrintInt(p) + f.post + ".", unit + "." + kind, unit' + "." + kind');
  }

  lemma UrlTellsPort(f: Format, p: int, unit: string, kind: string, q: int, unit': string, kind': string)
    requires GoodFormat(f) && Url(f, p, unit, kind) == Url(f, q, unit', kind')
    ensures p == q
  {
    var url := UrlFor(f, p, unit, kind);
    var url' := UrlFor(f, q, unit', kind');
    ScannedOnce(f, url, p, q);
  }

  lemma ScannedOnce(f: Format, url: string, p: int, q: int)
    requires IsScanned(f, url, p) && IsScanned(f, url, q)
    ensures p == q
  {
  }

  lemma SocketUrl(f: Format, port: int, unit: string, kind: string)
    requires Contains(f.pre + "%i" + f.post, "sock")
    ensures Url(f, port, unit, kind) == (f.pre + PrintInt(port) + f.post + ".") + (unit + "." + kind)
  {
    Joined(f.pre + PrintInt(port), f.post, unit, kind);
  }

  // The two URLs of a unit that has socket files, by their ends
  lemma NamedUrls(m: Manager, unit: string, p: int, q: int)
    requires Contains(m.format.pre + "%i" + m.format.post, "sock")
    ensures
      var f, u := m.format, NewUnit(m, unit, p, q);
      && u.outputUrl == (f.pre + PrintInt(m.start + p) + f.post + ".") + (unit + "." + "output_url")
      && u.inferenceUrl == (f.pre + PrintInt(m.start + q) + f.post + ".") + (unit + "." + "inference_url")
  {
    SocketUrl(m.format, m.start + p, unit, "output_url");
    SocketUrl(m.format, m.start + q, unit, "inference_url");
  }

  lemma Joined(a: string, b: string, unit: string, kind: string)
    ensures a + (b + "." + unit + "." + kind) == (a + b + ".") + (unit + "." + kind)
  {
  }

  lemma SameRest(front: string, a: string, b: string)
    requires front + a == front + b
    ensures a == b
  {
    assert (front + a)[|front|..] == a && (front + b)[|front|..] == b;
  }

  // -------- the code, as functions --------

  function FirstFree(marks: seq<bool>): (i: nat)
    ensures i <= |marks| && (forall j :: 0 <= j < i ==> marks[j])
    ensures i < |marks| ==> !marks[i]
  {
    if marks == [] || !marks[0] then 0 else 1 + FirstFree(marks[1..])
  }

  predicate TwoFree(marks: seq<bool>) {
    exists i, j :: 0 <= i < j < |marks| && !marks[i] && !marks[j]
  }

  function WorkId(unit: string, number: nat): string { unit + "." + Print(number) }

  const OUT_PORT := ".out_port"

  // A unit with the ports at two places
  function NewUnit(m: Manager, unit: string, p: int, q: int): Unit {
    Unit(m.counter, Url(m.format, m.start + p, unit, "output_url"), Url(m.format, m.start + q, unit, "inference_url"))
  }

  // A new unit is entered under id, and its output port under o.
  function Enter(m: Manager, id: string, o: string, u: Unit, g: Given, marks: seq<bool>): Manager {
    m.(counter := m.counter + 1, marks := marks, sql := m.sql[id := UnitPtr(u)][o := Str(u.outputUrl)],
       given := m.given[id := g])
  }

  // The search both ports are found by: the place it finds, which is then marked, or the one that
  // the variable happens to stand for when it finds none
  function Search(marks: seq<bool>, stray: int): (int, seq<bool>) {
    var i := FirstFree(marks);
    if i < |marks| then (i, marks[i := true]) else (stray, marks)
  }

  // The two places, and the marks after both searches; the strays are what the two uninitialised
  // variables hold.
  function Places(m: Manager, stray1: int, stray2: int): (int, int, seq<bool>) {
    var (p, marks1) := Search(m.marks, stray1 - m.start);
    var (q, marks2) := Search(marks1, stray2 - m.start);
    (p, q, marks2)
  }

  // sys_allocate_unit
  function AllocateAny(m: Manager, unit: string, stray1: int, stray2: int): Manager {
    var (p, q, marks) := Places(m, stray1, stray2);
    var id := WorkId(unit, m.counter);
    Enter(m, id, id + OUT_PORT, NewUnit(m, unit, p, q), Given(p, q, unit), marks)
  }

  // The unit that it enters
  function UnitAny(m: Manager, unit: string, stray1: int, stray2: int): Unit {
    var (p, q, _) := Places(m, stray1, stray2);
    NewUnit(m, unit, p, q)
  }

  // The same when both searches succeed: the two ports are the first two that are free
  function Allocate(m: Manager, unit: string): Manager
    requires TwoFree(m.marks)
  {
    var p := FirstFree(m.marks);
    var q := FirstFree(m.marks[p := true]);
    var id := WorkId(unit, m.counter);
    TwoFreeFound(m.marks);
    Enter(m, id, id + OUT_PORT, NewUnit(m, unit, p, q), Given(p, q, unit), m.marks[p := true][q := true])
  }

  lemma AllocateAnyIs(m: Manager, unit: string, stray1: int, stray2: int)
    requires TwoFree(m.marks)
    ensures AllocateAny(m, unit, stray1, stray2) == Allocate(m, unit)
    ensures UnitAny(m, unit, stray1, stray2) == Registered(m, unit)
  {
    TwoFreeFound(m.marks);
  }

  // The unit that Allocate enters
  function Registered(m: Manager, unit: string): Unit {
    var p := FirstFree(m.marks);
    NewUnit(m, unit, p, if p < |m.marks| then FirstFree(m.marks[p := true]) else p)
  }

  lemma TwoFreeFound(marks: seq<bool>)
    requires TwoFree(marks)
    ensures
      var p := FirstFree(marks);
      p < |marks| && p < FirstFree(marks[p := true]) < |marks|
  {
    var i, j :| 0 <= i < j < |marks| && !marks[i] && !marks[j];
    var p := FirstFree(marks);
    assert p <= i;
    assert !marks[p := true][j];
  }

  // Exactly when both searches find a port; otherwise the code goes on with an indeterminate one.
  lemma SearchesSucceed(marks: seq<bool>)
    ensures TwoFree(marks) <==> FirstFree(marks) < |marks| && FirstFree(marks[FirstFree(marks) := true]) < |marks|
  {
    if TwoFree(marks) {
      TwoFreeFound(marks);
    } else if FirstFree(marks) < |marks| {
      var p := FirstFree(marks);
      var marked := marks[p := true];
      assert forall q :: p < q < |marks| ==> marked[q] == marks[q];
      assert forall q :: 0 <= q < |marks| ==> marked[q];
    }
  }

  predicate IsUnit(m: Manager, key: string) { key in m.sql && m.sql[key].UnitPtr? }

  function Free(marks: seq<bool>, port: Option<int>, start: nat): seq<bool> {
    if port.Some? && 0 <= port.value - start < |marks| then marks[port.value - start := false] else marks
  }

  // sys_release_unit; a key that holds no unit is left alone
  function Release(m: Manager, key: string): Manager {
    if !IsUnit(m, key) then m
    else
      var u := m.sql[key].u;
      var marks := Free(m.marks, ScanUrl(m.format, u.outputUrl), m.start);
      m.(marks := Free(marks, ScanUrl(m.format, u.inferenceUrl), m.start), sql := m.sql - {key, key + OUT_PORT},
         given := m.given - {key})
  }

  // -------- the invariant --------

  predicate At(m: Manager, key: string, i: int)
    requires key in m.given
  {
    i == m.given[key].first || i == m.given[key].second
  }

  // The key of a unit spells its name and number, and its URLs are scanned back to its two places.
  ghost predicate Spelled(f: Format, start: nat, key: string, u: Unit, g: Given) {
    && key == WorkId(g.name, u.number)
    && IsScanned(f, u.outputUrl, start + g.first) && IsScanned(f, u.inferenceUrl, start + g.second)
  }

  predicate IsScanned(f: Format, url: string, port: int) { ScanUrl(f, url) == Some(port) }

  ghost predicate UnitInv(m: Manager, key: string)
    requires key in m.given
  {
    && IsUnit(m, key) && m.sql[key].u.number < m.counter
    && Spelled(m.format, m.start, key, m.sql[key].u, m.given[key])
    && key + OUT_PORT in m.sql && m.sql[key + OUT_PORT] == Str(m.sql[key].u.outputUrl)
    && m.given[key].first != m.given[key].second
    && forall i :: At(m, key, i) ==> 0 <= i < |m.marks| && m.marks[i]
  }

  // Each unit is in order and has two places of its own, and these are all the places marked.
  ghost predicate Inv(m: Manager) {
    && GoodFormat(m.format)
    && (forall key :: key in m.given <==> IsUnit(m, key))
    && (forall key {:trigger UnitInv(m, key)} :: key in m.given ==> UnitInv(m, key))
    && (forall a, b, i :: a in m.given && b in m.given && At(m, a, i) && At(m, b, i) ==> a == b)
    && (forall i :: 0 <= i < |m.marks| && m.marks[i] ==> exists key :: key in m.given && At(m, key, i))
  }

  // The key of a unit ends in a digit, and so is never the key of a unit's output port.
  lemma OutPortIsNoWorkId(key: string, unit: string, number: nat)
    ensures key + OUT_PORT != WorkId(unit, number)
  {
    var s, t := key + OUT_PORT, WorkId(unit, number);
    assert s[|s| - 1] == 't' && IsDigit(t[|t| - 1]);
  }

  lemma OutPortDistinct(a: string, b: string)
    ensures a + OUT_PORT == b + OUT_PORT <==> a == b
  {
    if a + OUT_PORT == b + OUT_PORT {
      assert a == (a + OUT_PORT)[..|a + OUT_PORT| - |OUT_PORT|];
      assert b == (b + OUT_PORT)[..|b + OUT_PORT| - |OUT_PORT|];
    }
  }

  lemma FreshWorkId(m: Manager, unit: string)
    requires Inv(m)
    ensures WorkId(unit, m.counter) !in m.given
  {
    var id := WorkId(unit, m.counter);
    if id in m.given {
      assert UnitInv(m, id);
      DottedInjective(unit, m.counter, m.given[id].name, m.sql[id].u.number);
    }
  }

  lemma OutPortIsNoUnit(m: Manager, key: string)
    requires Inv(m)
    ensures key + OUT_PORT !in m.given
  {
    if key + OUT_PORT in m.given {
      assert UnitInv(m, key + OUT_PORT);
      OutPortIsNoWorkId(key, m.given[key + OUT_PORT].name, m.sql[key + OUT_PORT].u.number);
    }
  }

  // What allocation does, with the strings out of sight: o is the key of the new output port.
  ghost predicate Allocated(m: Manager, m': Manager, id: string, o: string, u: Unit, g: Given) {
    && id !in m.given && o !in m.given && id != o
    && 0 <= g.first < |m.marks| && 0 <= g.second < |m.marks|
    && g.first != g.second && !m.marks[g.first] && !m.marks[g.second]
    && u.number == m.counter && Spelled(m.format, m.start, id, u, g)
    && m' == Enter(m, id, o, u, g, m.marks[g.first := true][g.second := true])
  }

  lemma EnterEffect(m: Manager, unit: string, p: nat, q: nat)
    requires Inv(m) && p < q < |m.marks| && !m.marks[p] && !m.marks[q]
    ensures
      var id, u, g := WorkId(unit, m.counter), NewUnit(m, unit, p, q), Given(p, q, unit);
      Allocated(m, Enter(m, id, id + OUT_PORT, u, g, m.marks[p := true][q := true]), id, id + OUT_PORT, u, g)
  {
    FreshWorkId(m, unit);
    OutPortIsNoUnit(m, WorkId(unit, m.counter));
    OutPortIsNoWorkId(WorkId(unit, m.counter), unit, m.counter);
    NewUnitSpelled(m, unit, p, q);
  }

  lemma NewUnitSpelled(m: Manager, unit: string, p: int, q: int)
    requires GoodFormat(m.format)
    ensures Spelled(m.format, m.start, WorkId(unit, m.counter), NewUnit(m, unit, p, q), Given(p, q, unit))
  {
    var outputUrl := UrlFor(m.format, m.start + p, unit, "output_url");
    var inferenceUrl := UrlFor(m.format, m.start + q, unit, "inference_url");
    SpelledOf(m.format, m.start, unit, m.counter, p, q, outputUrl, inferenceUrl);
  }

  lemma SpelledOf(f: Format, start: nat, unit: string, number: nat, p: int, q: int, a: string, b: string)
    requires IsScanned(f, a, start + p) && IsScanned(f, b, start + q)
    ensures Spelled(f, start, WorkId(unit, number), Unit(number, a, b), Given(p, q, unit))
  {
  }

  lemma UrlFor(f: Format, port: int, unit: string, kind: string) returns (url: string)
    requires GoodFormat(f)
    ensures url == Url(f, port, unit, kind) && IsScanned(f, url, port)
  {
    ScanUrlOfUrl(f, port, unit, kind);
    url := Url(f, port, unit, kind);
  }

  lemma AllocateEffect(m: Manager, unit: string) returns (u: Unit, g: Given)
    requires Inv(m) && TwoFree(m.marks)
    ensures u == Registered(m, unit)
    ensures Allocated(m, Allocate(m, unit), WorkId(unit, m.counter), WorkId(unit, m.counter) + OUT_PORT, u, g)
  {
    var p := FirstFree(m.marks);
    var q := FirstFree(m.marks[p := true]);
    TwoFreeFound(m.marks);
    u, g := NewUnit(m, unit, p, q), Given(p, q, unit);
    EnterEffect(m, unit, p, q);
  }

  lemma AllocatedUnit(m: Manager, m': Manager, id: string, u: Unit, g: Given, key: string)
    requires Inv(m) && Allocated(m, m', id, id + OUT_PORT, u, g) && key in m'.given
    ensures UnitInv(m', key)
  {
    if key != id {
      assert UnitInv(m, key);
      OutPortDistinct(key, id);
      OutPortIsNoWorkId(key, g.name, u.number);
      assert m'.sql[key] == m.sql[key] && m'.sql[key + OUT_PORT] == m.sql[key + OUT_PORT];
      forall i | At(m', key, i) ensures 0 <= i < |m'.marks| && m'.marks[i] {
        assert At(m, key, i);
      }
    }
  }

  lemma AllocatedPlaces(m: Manager, m': Manager, id: string, o: string, u: Unit, g: Given)
    requires Inv(m) && Allocated(m, m', id, o, u, g)
    ensures forall key :: key in m'.given <==> IsUnit(m', key)
    ensures forall a, b, i :: a in m'.given && b in m'.given && At(m', a, i) && At(m', b, i) ==> a == b
    ensures forall i :: 0 <= i < |m'.marks| && m'.marks[i] ==> exists key :: key in m'.given && At(m', key, i)
  {
    forall a, b, i | a in m'.given && b in m'.given && At(m', a, i) && At(m', b, i) ensures a == b {
      if a != id { assert UnitInv(m, a) && At(m, a, i); }
      if b != id { assert UnitInv(m, b) && At(m, b, i); }
    }
    forall i | 0 <= i < |m'.marks| && m'.marks[i] ensures exists key :: key in m'.given && At(m', key, i) {
      if i == g.first || i == g.second {
        assert At(m', id, i);
      } else {
        assert m.marks[i];
        var key :| key in m.given && At(m, key, i);
        assert At(m', key, i);
      }
    }
  }

  // Main result: an allocation gives a new unit the first two places that no unit had, and keeps
  // the invariant: units have disjoint pairs of places, and exactly these are marked.
  lemma AllocateKeeps(m: Manager, unit: string)
    requires Inv(m) && TwoFree(m.marks)
    ensures
      var m', id := Allocate(m, unit), WorkId(unit, m.counter);
      && Inv(m') && id !in m.given && m'.given.Keys == m.given.Keys + {id}
      && IsUnit(m', id) && m'.sql[id].u == Registered(m, unit)
      && (forall i :: At(m', id, i) ==> 0 <= i < |m.marks| && !m.marks[i])
      && (forall key :: key in m.given ==>
        m'.given[key] == m.given[key] && IsUnit(m, key) && IsUnit(m', key) && m'.sql[key] == m.sql[key])
  {
    var u, g := AllocateEffect(m, unit);
    AllocatedKeeps(m, Allocate(m, unit), WorkId(unit, m.counter), u, g);
  }

  lemma AllocatedKeeps(m: Manager, m': Manager, id: string, u: Unit, g: Given)
    requires Inv(m) && Allocated(m, m', id, id + OUT_PORT, u, g)
    ensures Inv(m') && id !in m.given && m'.given.Keys == m.given.Keys + {id}
    ensures forall i :: At(m', id, i) ==> 0 <= i < |m.marks| && !m.marks[i]
    ensures forall key :: key in m.given ==> Untouched(m, m', key)
  {
    AllocatedInv(m, m', id, u, g);
    forall key | key in m.given ensures Untouched(m, m', key) {
      AllocatedElsewhere(m, m', id, u, g, key);
    }
  }

  // A unit that another has come or gone beside
  predicate Untouched(m: Manager, m': Manager, key: string)
    requires key in m.given
  {
    key in m'.given && m'.given[key] == m.given[key] && IsUnit(m, key) && IsUnit(m', key) && m'.sql[key] == m.sql[key]
  }

  lemma AllocatedElsewhere(m: Manager, m': Manager, id: string, u: Unit, g: Given, key: string)
    requires Inv(m) && Allocated(m, m', id, id + OUT_PORT, u, g) && key in m.given
    ensures Untouched(m, m', key)
  {
    assert key != id && key != id + OUT_PORT;
  }

  lemma AllocatedInv(m: Manager, m': Manager, id: string, u: Unit, g: Given)
    requires Inv(m) && Allocated(m, m', id, id + OUT_PORT, u, g)
    ensures Inv(m')
  {
    AllocatedPlaces(m, m', id, id + OUT_PORT, u, g);
    forall key | key in m'.given ensures UnitInv(m', key) {
      AllocatedUnit(m, m', id, u, g, key);
    }
  }

  // Exactly when an allocation keeps the invariant, whatever the strays are: a port that no search
  // has found is out of range, or belongs to a unit already.
  lemma AllocateIff(m: Manager, unit: string, stray1: int, stray2: int)
    requires Inv(m)
    ensures Inv(AllocateAny(m, unit, stray1, stray2)) <==> TwoFree(m.marks)
  {
    if TwoFree(m.marks) {
      AllocateAnyIs(m, unit, stray1, stray2);
      AllocateKeepsInv(m, unit);
    } else {
      var m', id := AllocateAny(m, unit, stray1, stray2), WorkId(unit, m.counter);
      FreshWorkId(m, unit);
      SearchesSucceed(m.marks);
      assert At(m', id, m'.given[id].first) && At(m', id, m'.given[id].second);
      if FirstFree(m.marks) < |m.marks| {
        NoRoom(m, m', id, m'.given[id].second);
      } else {
        NoRoom(m, m', id, m'.given[id].first);
      }
    }
  }

  // Entering the unit once both searches have been made completes the allocation.
  lemma EnterIsAllocate(m: Manager, m': Manager, unit: string, stray1: int, stray2: int, p: int, q: int)
    requires (p, q, m'.marks) == Places(m, stray1, stray2) && m' == m.(marks := m'.marks)
    ensures NewUnit(m', unit, p, q) == UnitAny(m, unit, stray1, stray2)
    ensures
      var id, u := WorkId(unit, m.counter), NewUnit(m', unit, p, q);
      Enter(m', id, id + OUT_PORT, u, Given(p, q, unit), m'.marks) == AllocateAny(m, unit, stray1, stray2)
  {
  }

  lemma AllocationKeeps(m: Manager, m': Manager, unit: string, stray1: int, stray2: int)
    requires m' == AllocateAny(m, unit, stray1, stray2)
    ensures Inv(m) ==> (Inv(m') <==> TwoFree(m.marks))
  {
    if Inv(m) { AllocateIff(m, unit, stray1, stray2); }
  }

  // A unit whose place was marked before, or is its only one, has none of its own.
  lemma NoRoom(m: Manager, m': Manager, id: string, x: int)
    requires Inv(m) && id !in m.given && id in m'.given && m'.given == m.given[id := m'.given[id]]
    requires |m'.marks| == |m.marks| && At(m', id, x)
    requires (0 <= x < |m.marks| ==> m.marks[x]) || m'.given[id].first == m'.given[id].second
    ensures !Inv(m')
  {
    if Inv(m') {
      assert UnitInv(m', id);
      if m'.given[id].first != m'.given[id].second {
        assert m.marks[x];
        var key :| key in m.given && At(m, key, x);
        assert At(m', key, x);
      }
    }
  }

  lemma AllocateKeepsInv(m: Manager, unit: string)
    requires Inv(m) && TwoFree(m.marks)
    ensures Inv(Allocate(m, unit))
  {
    AllocateKeeps(m, unit);
  }

  // What release does to a unit, with the strings out of sight
  ghost predicate Released(m: Manager, m': Manager, id: string, o: string) {
    && id in m.given && o !in m.given && id != o
    && m' == m.(marks := m'.marks, sql := m.sql - {id, o}, given := m.given - {id})
    && |m'.marks| == |m.marks|
    && (forall i :: 0 <= i < |m.marks| ==> m'.marks[i] == (m.marks[i] && !At(m, id, i)))
  }

  lemma ReleaseEffect(m: Manager, id: string)
    requires Inv(m) && id in m.given
    ensures Released(m, Release(m, id), id, id + OUT_PORT)
  {
    OutPortIsNoUnit(m, id);
    UnitScans(m, id);
  }

  // The places of a unit are scanned from its URLs, and are in range.
  lemma UnitScans(m: Manager, id: string)
    requires Inv(m) && id in m.given
    ensures IsUnit(m, id) && 0 <= m.given[id].first < |m.marks| && 0 <= m.given[id].second < |m.marks|
    ensures IsScanned(m.format, m.sql[id].u.outputUrl, m.start + m.given[id].first)
    ensures IsScanned(m.format, m.sql[id].u.inferenceUrl, m.start + m.given[id].second)
  {
    assert UnitInv(m, id);
    UnitInRange(m, id);
  }

  lemma UnitInRange(m: Manager, id: string)
    requires id in m.given && UnitInv(m, id)
    ensures IsUnit(m, id) && 0 <= m.given[id].first < |m.marks| && 0 <= m.given[id].second < |m.marks|
  {
    assert At(m, id, m.given[id].first) && At(m, id, m.given[id].second);
  }

  lemma ReleasedUnit(m: Manager, m': Manager, id: string, key: string)
    requires Inv(m) && Released(m, m', id, id + OUT_PORT) && key in m'.given
    ensures UnitInv(m', key)
  {
    assert UnitInv(m, key) && UnitInv(m, id);
    OutPortDistinct(key, id);
    OutPortIsNoWorkId(key, m.given[id].name, m.sql[id].u.number);
    forall i | At(m', key, i) ensures 0 <= i < |m'.marks| && m'.marks[i] {
      assert At(m, key, i) && !At(m, id, i);
    }
  }

  lemma ReleasedPlaces(m: Manager, m': Manager, id: string, o: string)
    requires Inv(m) && Released(m, m', id, o)
    ensures forall key :: key in m'.given <==> IsUnit(m', key)
    ensures forall a, b, i :: a in m'.given && b in m'.given && At(m', a, i) && At(m', b, i) ==> a == b
    ensures forall i :: 0 <= i < |m'.marks| && m'.marks[i] ==> exists key :: key in m'.given && At(m', key, i)
  {
    forall a, b, i | a in m'.given && b in m'.given && At(m', a, i) && At(m', b, i) ensures a == b {
      assert At(m, a, i) && At(m, b, i);
    }
    forall i | 0 <= i < |m'.marks| && m'.marks[i] ensures exists key :: key in m'.given && At(m', key, i) {
      var key :| key in m.given && At(m, key, i);
      assert At(m', key, i);
    }
  }

  // Main result: releasing a unit scans its two ports from the URLs and frees exactly these; no
  // other unit is touched, and a key that holds no unit changes nothing at all.
  lemma ReleaseKeeps(m: Manager, id: string)
    requires Inv(m)
    ensures
      var m' := Release(m, id);
      && Inv(m') && (id !in m.given ==> m' == m)
      && (id in m.given ==>
            (m'.given == m.given - {id} && |m'.marks| == |m.marks|
            && forall i :: 0 <= i < |m.marks| ==> m'.marks[i] == (m.marks[i] && !At(m, id, i))))
      && (forall key :: key in m'.given ==> IsUnit(m, key) && IsUnit(m', key) && m'.sql[key] == m.sql[key])
  {
    if id in m.given {
      var m' := Release(m, id);
      ReleaseEffect(m, id);
      ReleasedPlaces(m, m', id, id + OUT_PORT);
      forall key | key in m'.given ensures UnitInv(m', key) {
        ReleasedUnit(m, m', id, key);
      }
    }
  }

  // Main result: releasing what was just allocated gives back every port and every unit.
  lemma ReleaseUndoesAllocate(m: Manager, unit: string)
    requires Inv(m) && TwoFree(m.marks)
    ensures
      var m' := Release(Allocate(m, unit), WorkId(unit, m.counter));
      && m'.marks == m.marks && m'.given == m.given && m'.counter == m.counter + 1
      && (forall key :: key in m.given ==> IsUnit(m, key) && IsUnit(m', key) && m'.sql[key] == m.sql[key])
  {
    TwoFreeIsHarmless(m, 0, 0);
    AllocateAnyIs(m, unit, 0, 0);
    ReleaseUndoesIff(m, unit, 0, 0);
  }

  // Neither place that an allocation ends up with is one that a unit has.
  predicate Harmless(m: Manager, stray1: int, stray2: int) {
    var (p, q, _) := Places(m, stray1, stray2);
    (0 <= p < |m.marks| ==> !m.marks[p]) && (0 <= q < |m.marks| ==> !m.marks[q])
  }

  lemma TwoFreeIsHarmless(m: Manager, stray1: int, stray2: int)
    requires TwoFree(m.marks)
    ensures Harmless(m, stray1, stray2)
  {
    TwoFreeFound(m.marks);
  }

  // What an allocation and the release of its unit come to, whatever the strays are
  ghost predicate Undone(m: Manager, m': Manager, id: string, o: string, p: int, q: int) {
    && id !in m.given && o !in m.given
    && m' == m.(counter := m.counter + 1, marks := m'.marks, sql := m.sql - {id, o})
    && |m'.marks| == |m.marks|
    && (forall i :: 0 <= i < |m.marks| ==> m'.marks[i] == (m.marks[i] && i != p && i != q))
  }

  lemma UndoneBy(m: Manager, unit: string, stray1: int, stray2: int)
    requires Inv(m)
    ensures
      var id := WorkId(unit, m.counter);
    var (p, q, _) := Places(m, stray1, stray2);
      Undone(m, Release(AllocateAny(m, unit, stray1, stray2), id), id, id + OUT_PORT, p, q)
  {
    var id := WorkId(unit, m.counter);
    var (p, q, marks) := Places(m, stray1, stray2);
    FreshWorkId(m, unit);
    OutPortIsNoUnit(m, id);
    NewUnitSpelled(m, unit, p, q);
    MarksUndone(m, stray1, stray2);
    UndoneEntry(m, id, id + OUT_PORT, NewUnit(m, unit, p, q), Given(p, q, unit), marks);
  }

  lemma UndoneEntry(m: Manager, id: string, o: string, u: Unit, g: Given, marks: seq<bool>)
    requires id !in m.given && o !in m.given && o == id + OUT_PORT && Spelled(m.format, m.start, id, u, g)
    requires
      var after := Free(Free(marks, Some(m.start + g.first), m.start), Some(m.start + g.second), m.start);
      |after| == |m.marks|
      && forall i :: 0 <= i < |m.marks| ==> after[i] == (m.marks[i] && i != g.first && i != g.second)
    ensures Undone(m, Release(Enter(m, id, o, u, g, marks), id), id, o, g.first, g.second)
  {
    ReleaseEntered(m, id, o, u, g, marks);
  }

  lemma ReleaseEntered(m: Manager, id: string, o: string, u: Unit, g: Given, marks: seq<bool>)
    requires id !in m.given && o == id + OUT_PORT && Spelled(m.format, m.start, id, u, g)
    ensures
      Release(Enter(m, id, o, u, g, marks), id) ==
        m.(counter := m.counter + 1, sql := m.sql - {id, o},
           marks := Free(Free(marks, Some(m.start + g.first), m.start), Some(m.start + g.second), m.start))
  {
    assert id != o;
    assert m.sql[id := UnitPtr(u)][o := Str(u.outputUrl)] - {id, o} == m.sql - {id, o};
    assert m.given[id := g] - {id} == m.given;
  }

  lemma MarksUndone(m: Manager, stray1: int, stray2: int)
    ensures
      var (p, q, marks) := Places(m, stray1, stray2);
      var after := Free(Free(marks, Some(m.start + p), m.start), Some(m.start + q), m.start);
      |after| == |m.marks| && forall i :: 0 <= i < |m.marks| ==> after[i] == (m.marks[i] && i != p && i != q)
  {
  }

  // Exactly when a release undoes an allocation that may have gone wrong
  lemma UndoneIff(m: Manager, m': Manager, id: string, p: int, q: int)
    requires Inv(m) && Undone(m, m', id, id + OUT_PORT, p, q) && exists unit :: id == WorkId(unit, m.counter)
    ensures Inv(m') <==> (0 <= p < |m.marks| ==> !m.marks[p]) && (0 <= q < |m.marks| ==> !m.marks[q])
  {
    if x :| (x == p || x == q) && 0 <= x < |m.marks| && m.marks[x] {
      var key :| key in m.given && At(m, key, x);
      assert At(m', key, x) && !m'.marks[x];
      assert !UnitInv(m', key);
    } else {
      assert m'.marks == m.marks;
      forall key | key in m'.given ensures UnitInv(m', key) {
        UndoneUnit(m, m', id, key, p, q);
      }
      UndoneUnits(m, m', id, p, q);
    }
  }

  lemma UndoneUnit(m: Manager, m': Manager, id: string, key: string, p: int, q: int)
    requires Inv(m) && Undone(m, m', id, id + OUT_PORT, p, q) && m'.marks == m.marks && key in m.given
    requires exists unit :: id == WorkId(unit, m.counter)
    ensures UnitInv(m', key) && m'.sql[key] == m.sql[key]
  {
    var unit :| id == WorkId(unit, m.counter);
    assert UnitInv(m, key);
    OutPortDistinct(key, id);
    OutPortIsNoWorkId(key, unit, m.counter);
    forall i | At(m', key, i) ensures 0 <= i < |m'.marks| && m'.marks[i] {
      assert At(m, key, i);
    }
  }

  lemma UndoneUnits(m: Manager, m': Manager, id: string, p: int, q: int)
    requires Inv(m) && Undone(m, m', id, id + OUT_PORT, p, q) && m'.marks == m.marks
    requires forall key :: key in m'.given ==> UnitInv(m', key)
    ensures Inv(m')
  {
    forall key ensures key in m'.given <==> IsUnit(m', key) {
      assert key in m.given <==> IsUnit(m, key);
    }
    forall a, b, i | a in m'.given && b in m'.given && At(m', a, i) && At(m', b, i) ensures a == b {
      assert At(m, a, i) && At(m, b, i);
    }
    forall i | 0 <= i < |m'.marks| && m'.marks[i] ensures exists key :: key in m'.given && At(m', key, i) {
      var key :| key in m.given && At(m, key, i);
      assert At(m', key, i);
    }
  }

  // Exactly: releasing the unit of any allocation keeps the invariant if and only if the allocation
  // was harmless, and then gives back every port and every unit.
  lemma ReleaseUndoesIff(m: Manager, unit: string, stray1: int, stray2: int)
    requires Inv(m)
    ensures
      var m' := Release(AllocateAny(m, unit, stray1, stray2), WorkId(unit, m.counter));
      && (Inv(m') <==> Harmless(m, stray1, stray2)) && (Inv(m') ==> m'.marks == m.marks)
      && m'.given == m.given && m'.counter == m.counter + 1
      && (forall key :: key in m.given ==> IsUnit(m, key) && IsUnit(m', key) && m'.sql[key] == m.sql[key])
  {
    var id := WorkId(unit, m.counter);
    var (p, q, _) := Places(m, stray1, stray2);
    var m' := Release(AllocateAny(m, unit, stray1, stray2), id);
    UndoneBy(m, unit, stray1, stray2);
    UndoneIff(m, m', id, p, q);
    if Harmless(m, stray1, stray2) {
      assert m'.marks == m.marks;
    }
    forall key | key in m.given ensures IsUnit(m, key) && IsUnit(m', key) && m'.sql[key] == m.sql[key] {
      assert UnitInv(m, key);
    }
  }

  // -------- conservation --------

  function Marked(marks: seq<bool>): set<int> { set i | 0 <= i < |marks| && marks[i] }

  function AllPlaces(m: Manager, keys: set<string>): set<int>
    requires keys <= m.given.Keys
  {
    (set key | key in keys :: m.given[key].first) + (set key | key in keys :: m.given[key].second)
  }

  lemma {:induction false} PlacesCount(m: Manager, keys: set<string>)
    requires keys <= m.given.Keys
    requires forall key :: key in keys ==> m.given[key].first != m.given[key].second
    requires forall a, b, i :: a in keys && b in keys && At(m, a, i) && At(m, b, i) ==> a == b
    ensures |AllPlaces(m, keys)| == 2 * |keys|
    decreases |keys|
  {
    if keys == {} {
      assert AllPlaces(m, keys) == {};
    } else {
      var key :| key in keys;
      var rest := keys - {key};
      PlacesCount(m, rest);
      var p, q := m.given[key].first, m.given[key].second;
      assert At(m, key, p) && At(m, key, q);
      forall other | other in rest ensures !At(m, other, p) && !At(m, other, q) { }
      assert p !in AllPlaces(m, rest) && q !in AllPlaces(m, rest);
      assert AllPlaces(m, keys) == AllPlaces(m, rest) + {p} + {q};
    }
  }

  lemma MarkedAreGiven(m: Manager)
    requires Inv(m)
    ensures Marked(m.marks) == AllPlaces(m, m.given.Keys)
  {
    forall i | i in Marked(m.marks) ensures i in AllPlaces(m, m.given.Keys) {
      var key :| key in m.given && At(m, key, i);
    }
    forall i | i in AllPlaces(m, m.given.Keys) ensures i in Marked(m.marks) {
      var key :| key in m.given && At(m, key, i);
      assert UnitInv(m, key);
    }
  }

  // Main result: exactly twice as many ports are marked as there are units.
  lemma PortsConserved(m: Manager)
    requires Inv(m)
    ensures |Marked(m.marks)| == 2 * |m.given|
  {
    forall key | key in m.given ensures m.given[key].first != m.given[key].second { assert UnitInv(m, key); }
    PlacesCount(m, m.given.Keys);
    MarkedAreGiven(m);
  }

  // -------- the object --------

  class UnitManager {
    const format: Format
    const portListStart: nat
    var workIdNumberCounter: nat
    const portList: array<bool>
    var keySql: map<string, Entry>
    ghost var given: map<string, Given>

    ghost function Now(): Manager
      reads this, portList
    {
      Manager(format, workIdNumberCounter, portListStart, portList[..], keySql, given)
    }

    constructor (format: Format, counter: nat, minPort: nat, maxPort: nat, config: map<string, Entry>)
      requires GoodFormat(format) && minPort <= maxPort && forall key :: key in config ==> !config[key].UnitPtr?
      ensures Inv(Now()) && fresh(portList) && portList.Length == maxPort - minPort && keySql == config
      ensures forall i :: 0 <= i < portList.Length ==> !portList[i]
    {
      this.format, portListStart, workIdNumberCounter, keySql := format, minPort, counter, config;
      given := map[];
      portList := new bool[maxPort - minPort](_ => false);
    }

    // The search both ports are found by; port is not changed when it finds none
    method TakePort(stray: int) returns (port: int)
      modifies portList
      ensures
        var (place, marks) := Search(old(portList[..]), stray - portListStart);
        port == portListStart + place && portList[..] == marks
    {
      port := stray;
      var i := 0;
      while i < portList.Length && portList[i]
        invariant 0 <= i <= FirstFree(portList[..])
      {
        i := i + 1;
      }
      if i < portList.Length {
        port := portListStart + i;
        portList[i] := true;
      }
    }

    method TakePorts(stray1: int, stray2: int) returns (port1: int, port2: int)
      modifies portList
      ensures (port1 - portListStart, port2 - portListStart, portList[..]) == Places(old(Now()), stray1, stray2)
    {
      port1 := TakePort(stray1);
      port2 := TakePort(stray2);
    }

    method AllocateUnit(unit: string, stray1: int, stray2: int) returns (id: string, u: Unit)
      modifies this`workIdNumberCounter, this`keySql, this`given, portList
      ensures Now() == AllocateAny(old(Now()), unit, stray1, stray2)
      ensures u == UnitAny(old(Now()), unit, stray1, stray2) && id == WorkId(unit, u.number)
      ensures Inv(old(Now())) ==> (Inv(Now()) <==> TwoFree(old(Now()).marks))
    {
      ghost var before := Now();
      var port1, port2 := TakePorts(stray1, stray2);
      EnterIsAllocate(before, Now(), unit, stray1, stray2, port1 - portListStart, port2 - portListStart);
      id, u := EnterUnit(unit, port1, port2);
      AllocationKeeps(before, Now(), unit, stray1, stray2);
    }

    // The new unit with the two ports is entered under the next work id.
    method EnterUnit(unit: string, port1: int, port2: int) returns (id: string, u: Unit)
      modifies this`workIdNumberCounter, this`keySql, this`given
      ensures u == NewUnit(old(Now()), unit, port1 - portListStart, port2 - portListStart)
      ensures id == WorkId(unit, u.number)
      ensures
        var p, q := port1 - portListStart, port2 - portListStart;
        Now() == Enter(old(Now()), id, id + OUT_PORT, u, Given(p, q, unit), portList[..])
    {
      var number := workIdNumberCounter;
      id := WorkId(unit, number);
      workIdNumberCounter := workIdNumberCounter + 1;
      u := Unit(number, Url(format, port1, unit, "output_url"), Url(format, port2, unit, "inference_url"));
      keySql := keySql[id := UnitPtr(u)];
      keySql := keySql[id + OUT_PORT := Str(u.outputUrl)];
      given := given[id := Given(port1 - portListStart, port2 - portListStart, unit)];
    }

    method ReleaseUnit(key: string) returns (status: int)
      modifies this`keySql, this`given, portList
      ensures Now() == Release(old(Now()), key)
      ensures Inv(old(Now())) ==> Inv(Now())
      ensures status == if key in old(keySql) && old(keySql)[key].UnitPtr? then 0 else -1
    {
      ghost var before := Now();
      if Inv(before) { ReleaseKeeps(before, key); }
      if key !in keySql || !keySql[key].UnitPtr? {
        return -1;
      }
      var u := keySql[key].u;
      FreePort(u.outputUrl);
      FreePort(u.inferenceUrl);
      keySql := keySql - {key, key + OUT_PORT};
      given := given - {key};
      return 0;
    }

    // The ports of every unit in order are in the list (UnitScans); the model leaves others alone.
    method FreePort(url: string)
      modifies portList
      ensures portList[..] == Free(old(portList[..]), ScanUrl(format, url), portListStart)
    {
      var port := ScanUrl(format, url);
      if port.Some? && 0 <= port.value - portListStart < portList.Length {
        portList[port.value - portListStart] := false;
      }
    }
  }
}
