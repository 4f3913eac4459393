/** What the reader of server-sent events makes of every way of cutting a text, line by line. */
module SseCuts {
  import opened Text
  import opened Sse

  // -------- trimming --------

  predicate Blank(s: string) { forall i :: 0 <= i < |s| ==> IsBlank(s[i]) }

  lemma {:induction false} TrimStartOf(u: string, v: string)
    ensures TrimStart(u + v) == if Blank(u) then TrimStart(v) else TrimStart(u) + v
    ensures !Blank(u) ==> !Blank(TrimStart(u))
  {
    if u == "" {
      assert u + v == v;
    } else {
      assert [u[0]] + u[1..] == u && (u + v)[1..] == u[1..] + v;
      BlankConcat([u[0]], u[1..]);
      if IsBlank(u[0]) {
        TrimStartOf(u[1..], v);
      }
    }
  }

  lemma {:induction false} TrimEndOf(u: string, v: string)
    ensures TrimEnd(u + v) == if Blank(v) then TrimEnd(u) else u + TrimEnd(v)
    ensures Blank(v) ==> TrimEnd(v) == ""
  {
    if v == "" {
      assert u + v == u;
    } else {
      var c := Last(v);
      assert Init(v) + [c] == v && (u + v)[..|u + v| - 1] == u + Init(v);
      BlankConcat(Init(v), [c]);
      if IsBlank(c) {
        TrimEndOf(u, Init(v));
      }
    }
  }

  lemma BlankConcat(a: string, b: string)
    ensures Blank(a + b) <==> Blank(a) && Blank(b)
  {
    if Blank(a + b) {
      assert forall i :: 0 <= i < |a| ==> a[i] == (a + b)[i];
      assert forall i :: 0 <= i < |b| ==> b[i] == (a + b)[|a| + i];
    }
  }

  lemma {:induction false} TrimStartLeaves(s: string) returns (w: string)
    ensures s == w + TrimStart(s) && Blank(w)
  {
    if s != "" && IsBlank(s[0]) {
      w := TrimStartLeaves(s[1..]);
      w := [s[0]] + w;
    } else {
      w := "";
    }
  }

  lemma {:induction false} TrimEndShort(s: string)
    ensures |TrimEnd(s)| <= |s|
  {
    if s != "" {
      TrimEndShort(s[..|s| - 1]);
    }
  }

  lemma TrimNothing(s: string)
    ensures Trim(s) == "" <==> Blank(s)
  {
    if Blank(s) {
      assert s + "" == s;
      TrimStartOf(s, "");
    } else {
      TrimStartOf(s, "");
      var t := TrimStart(s);
      TrimEndOf("", t);
      TrimEndKeeps(t);
    }
  }

  lemma {:induction false} TrimEndKeeps(s: string)
    requires !Blank(s)
    ensures TrimEnd(s) != ""
  {
    if IsBlank(Last(s)) {
      assert Init(s) + [Last(s)] == s;
      BlankConcat(Init(s), [Last(s)]);
      TrimEndKeeps(Init(s));
    }
  }

  // Blank text at either end makes no difference, ...
  lemma TrimBlank(u: string, v: string)
    requires Blank(u) || Blank(v)
    ensures Trim(u + v) == if Blank(u) then Trim(v) else Trim(u)
  {
    TrimStartOf(u, v);
    TrimEndOf(TrimStart(u), v);
  }

  // ... and two texts that are not are longer together.
  lemma TrimBoth(u: string, v: string)
    requires !Blank(u) && !Blank(v)
    ensures |Trim(u + ("\n" + v))| > |Trim(u)| + |Trim(v)| && '\n' in Trim(u + ("\n" + v))
  {
    BlankConcat("\n", v);
    TrimStartOf(u, "\n" + v);
    TrimEndOf(TrimStart(u), "\n" + v);
    TrimEndOf("\n", v);
    TrimEndShort(TrimStart(u));
    var w := TrimStartLeaves(v);
    BlankConcat(w, TrimStart(v));
    TrimEndOf(w, TrimStart(v));
    assert Trim(u + ("\n" + v)) == TrimStart(u) + ("\n" + TrimEnd(v));
    assert ("\n" + TrimEnd(v))[0] == '\n';
  }

  predicate AllBlank(datas: seq<string>) { forall i :: 0 <= i < |datas| ==> Blank(datas[i]) }

  lemma {:induction false} JoinConcat(a: seq<string>, b: seq<string>)
    requires a != [] && b != []
    ensures JoinLines(a + b) == JoinLines(a) + ("\n" + JoinLines(b))
  {
    assert (a + b)[1..] == a[1..] + b && (a + b)[0] == a[0];
    if |a| > 1 {
      JoinConcat(a[1..], b);
    } else {
      assert a[1..] + b == b;
    }
  }

  lemma {:induction false} BlankJoin(datas: seq<string>)
    ensures Blank(JoinLines(datas)) <==> AllBlank(datas)
  {
    if |datas| > 1 {
      BlankJoin(datas[1..]);
      assert datas == [datas[0]] + datas[1..];
      BlankConcat(datas[0] + "\n", JoinLines(datas[1..]));
      BlankConcat(datas[0], "\n");
      AllBlankConcat([datas[0]], datas[1..]);
    }
  }

  lemma AllBlankConcat(a: seq<string>, b: seq<string>)
    ensures AllBlank(a + b) <==> AllBlank(a) && AllBlank(b)
  {
    if AllBlank(a + b) {
      assert forall i :: 0 <= i < |a| ==> a[i] == (a + b)[i];
      assert forall i :: 0 <= i < |b| ==> b[i] == (a + b)[|a| + i];
    }
  }

  // -------- the data of lines --------

  // What the reader makes of data lines that end up in one event
  function Flush(datas: seq<string>): seq<string> {
    var data := Trim(JoinLines(datas));
    if data == "" || data == DONE then [] else [data]
  }

  function OneData(line: string): seq<string> { if DATA <= line then [Trim(line[5..])] else [] }

  // The data of lines, of which the empty ones end events, behind some data lines of the first
  function LineDatas(acc: seq<string>, lines: seq<string>): seq<string>
    decreases lines
  {
    if lines == [] then Flush(acc)
    else if lines[0] == "" then Flush(acc) + LineDatas([], lines[1..])
    else LineDatas(acc + OneData(lines[0]), lines[1..])
  }

  // The data lines up to the first empty line, and the data of what is beyond it
  function Upto(lines: seq<string>): seq<string> {
    if lines == [] || lines[0] == "" then [] else OneData(lines[0]) + Upto(lines[1..])
  }

  function Beyond(lines: seq<string>): seq<string> {
    if lines == [] then [] else if lines[0] == "" then LineDatas([], lines[1..]) else Beyond(lines[1..])
  }

  lemma {:induction false} LookAhead(acc: seq<string>, lines: seq<string>)
    ensures LineDatas(acc, lines) == Flush(acc + Upto(lines)) + Beyond(lines)
    decreases lines
  {
    if lines == [] || lines[0] == "" {
      assert acc + [] == acc;
    } else {
      LookAhead(acc + OneData(lines[0]), lines[1..]);
      assert (acc + OneData(lines[0])) + Upto(lines[1..]) == acc + Upto(lines);
    }
  }

  // The data lines since the last empty line, and the data of what is before it
  function Since(acc: seq<string>, lines: seq<string>): seq<string>
    decreases lines
  {
    if lines == [] then acc
    else Since(if lines[0] == "" then [] else acc + OneData(lines[0]), lines[1..])
  }

  function Front(acc: seq<string>, lines: seq<string>): seq<string>
    decreases lines
  {
    if lines == [] then []
    else if lines[0] == "" then Flush(acc) + Front([], lines[1..])
    else Front(acc + OneData(lines[0]), lines[1..])
  }

  lemma {:induction false} LookBack(acc: seq<string>, a: seq<string>, b: seq<string>)
    ensures LineDatas(acc, a + b) == Front(acc, a) + LineDatas(Since(acc, a), b)
    decreases a
  {
    if a == [] {
      assert a + b == b;
    } else {
      assert (a + b)[1..] == a[1..] + b && (a + b)[0] == a[0];
      LookBack(if a[0] == "" then [] else acc + OneData(a[0]), a[1..], b);
    }
  }

  lemma {:induction false} SinceConcat(acc: seq<string>, a: seq<string>, b: seq<string>)
    ensures Since(acc, a + b) == Since(Since(acc, a), b)
    decreases a
  {
    if a == [] {
      assert a + b == b;
    } else {
      assert (a + b)[1..] == a[1..] + b && (a + b)[0] == a[0];
      SinceConcat(if a[0] == "" then [] else acc + OneData(a[0]), a[1..], b);
    }
  }

  // -------- how much data there is --------

  function Weight(datas: seq<string>): nat { if datas == [] then 0 else |datas[0]| + Weight(datas[1..]) }

  lemma {:induction false} WeightConcat(a: seq<string>, b: seq<string>)
    ensures Weight(a + b) == Weight(a) + Weight(b)
  {
    if a == [] {
      assert a + b == b;
    } else {
      assert (a + b)[1..] == a[1..] + b && (a + b)[0] == a[0];
      WeightConcat(a[1..], b);
    }
  }

  // The same data, or less
  predicate AtMost(a: seq<string>, b: seq<string>) { a == b || Weight(a) < Weight(b) }

  lemma AtMostBehind(x: seq<string>, a: seq<string>, b: seq<string>)
    requires AtMost(a, b)
    ensures AtMost(x + a, x + b) && (Weight(a) < Weight(b) ==> Weight(x + a) < Weight(x + b))
  {
    WeightConcat(x, a);
    WeightConcat(x, b);
  }

  lemma AtMostBefore(p: seq<string>, q: seq<string>, r: seq<string>, y: seq<string>)
    requires AtMost(p + q, r)
    ensures p + q == r ==> p + (q + y) == r + y
    ensures Weight(p + q) < Weight(r) ==> Weight(p + (q + y)) < Weight(r + y)
  {
    WeightConcat(p + q, y);
    WeightConcat(r, y);
    assert p + (q + y) == (p + q) + y;
  }

  lemma WeightOne(data: string)
    ensures Weight([data]) == |data|
  {
    var datas: seq<string> := [data];
    assert datas[1..] == [];
  }

  lemma FlushWeight(datas: seq<string>)
    ensures Weight(Flush(datas)) <= |Trim(JoinLines(datas))|
  {
    WeightOne(Trim(JoinLines(datas)));
  }

  // Ending an event between two data lines makes no difference if there is no data on one side, and
  // leaves less otherwise.
  lemma FlushTwice(a: seq<string>, b: seq<string>)
    ensures AllBlank(a) || AllBlank(b) ==> Flush(a) + Flush(b) == Flush(a + b)
    ensures !AllBlank(a) && !AllBlank(b) ==> Weight(Flush(a) + Flush(b)) < Weight(Flush(a + b))
  {
    BlankJoin(a);
    BlankJoin(b);
    TrimNothing(JoinLines(a));
    TrimNothing(JoinLines(b));
    if a == [] {
      assert a + b == b;
    } else if b == [] {
      assert a + b == a;
    } else {
      JoinConcat(a, b);
      FlushTwiceOf(a, b, JoinLines(a), JoinLines(b));
    }
  }

  lemma FlushTwiceOf(a: seq<string>, b: seq<string>, u: string, v: string)
    requires u == JoinLines(a) && v == JoinLines(b) && JoinLines(a + b) == u + ("\n" + v)
    ensures Blank(u) || Blank(v) ==> Flush(a) + Flush(b) == Flush(a + b)
    ensures !Blank(u) && !Blank(v) ==> Weight(Flush(a) + Flush(b)) < Weight(Flush(a + b))
  {
    BlankConcat("\n", v);
    TrimNothing(u);
    TrimNothing(v);
    if Blank(u) || Blank(v) {
      TrimBlank(u, "\n" + v);
      TrimBlank("\n", v);
    } else {
      TrimBoth(u, v);
      assert '\n' !in DONE;
      WeightConcat(Flush(a), Flush(b));
      FlushWeight(a);
      FlushWeight(b);
      WeightOne(Trim(u + ("\n" + v)));
    }
  }

  // -------- lines that lose carriage returns --------

  predicate Returns(s: string) { forall i :: 0 <= i < |s| ==> s[i] == '\r' }

  // A line that has lost some of the carriage returns at its end
  predicate Shorn(a: string, b: string) { a <= b && Returns(b[|a|..]) }

  predicate AllShorn(a: seq<string>, b: seq<string>) {
    |a| == |b| && forall i :: 0 <= i < |a| ==> Shorn(a[i], b[i])
  }

  lemma ShornTwice(a: string, b: string, c: string)
    requires Shorn(a, b) && Shorn(b, c)
    ensures Shorn(a, c)
  {
    assert a <= b <= c;
    forall i | 0 <= i < |c| - |a| ensures c[|a|..][i] == '\r' {
      if i < |b| - |a| {
        assert b[|a|..][i] == '\r' && b[|a| + i] == c[|a| + i];
      } else {
        assert c[|b|..][i - (|b| - |a|)] == '\r';
      }
    }
  }

  lemma AllShornTwice(a: seq<string>, b: seq<string>, c: seq<string>)
    requires AllShorn(a, b) && AllShorn(b, c)
    ensures AllShorn(a, c)
  {
    forall i | 0 <= i < |a| ensures Shorn(a[i], c[i]) {
      ShornTwice(a[i], b[i], c[i]);
    }
  }

  lemma AllShornSelf(a: seq<string>)
    ensures AllShorn(a, a)
  {
  }

  lemma ReturnsAreBlank(s: string)
    requires Returns(s)
    ensures Blank(s)
  {
  }

  lemma ShornName(a: string, b: string)
    requires Shorn(a, b)
    ensures DATA <= a <==> DATA <= b
  {
    assert |a| < |b| ==> b[|a|..][0] == b[|a|];
    assert forall i :: 0 <= i < |DATA| ==> DATA[i] != '\r';
    assert a <= b;
  }

  // Such a line has the same data, ...
  lemma ShornData(a: string, b: string)
    requires Shorn(a, b)
    ensures OneData(a) == OneData(b)
  {
    ShornName(a, b);
    if DATA <= b {
      var x := b[|a|..];
      assert b[5..] == a[5..] + x;
      ReturnsAreBlank(x);
      TrimBlank(a[5..], x);
      TrimNothing(a[5..]);
      TrimNothing(x);
    }
  }

  // ... and may only become empty if it is made of nothing else.
  predicate Hollow(line: string) { line != "" && Returns(line) }

  lemma HollowHasNoData(line: string)
    requires Returns(line)
    ensures OneData(line) == []
  {
    assert line[0..] == line;
    ShornName("", line);
  }

  // The data of shorn lines is the same, or less.
  lemma {:induction false} ShornAtMost(acc: seq<string>, a: seq<string>, b: seq<string>)
    requires AllShorn(a, b)
    ensures AtMost(LineDatas(acc, a), LineDatas(acc, b))
    decreases a
  {
    if a != [] {
      assert AllShorn(a[1..], b[1..]);
      if b[0] == "" {
        ShornAtMost([], a[1..], b[1..]);
        AtMostBehind(Flush(acc), LineDatas([], a[1..]), LineDatas([], b[1..]));
      } else if a[0] == "" {
        assert b[0][0..] == b[0];
        HollowHasNoData(b[0]);
        assert acc + [] == acc;
        ShornAtMost([], a[1..], b[1..]);
        EndedEarly(acc, b[1..], LineDatas([], a[1..]));
      } else {
        ShornData(a[0], b[0]);
        ShornAtMost(acc + OneData(a[0]), a[1..], b[1..]);
      }
    }
  }

  lemma EndedEarly(acc: seq<string>, lines: seq<string>, datas: seq<string>)
    requires AtMost(datas, LineDatas([], lines))
    ensures AtMost(Flush(acc) + datas, LineDatas(acc, lines))
  {
    AtMostBehind(Flush(acc), datas, LineDatas([], lines));
    EndEarly(acc, lines);
  }

  // An event that is ended before its lines are
  lemma EndEarly(acc: seq<string>, lines: seq<string>)
    ensures AtMost(Flush(acc) + LineDatas([], lines), LineDatas(acc, lines))
    ensures AllBlank(acc) || AllBlank(Upto(lines)) ==> Flush(acc) + LineDatas([], lines) == LineDatas(acc, lines)
    ensures !AllBlank(acc) && !AllBlank(Upto(lines)) ==>
      Weight(Flush(acc) + LineDatas([], lines)) < Weight(LineDatas(acc, lines))
  {
    var u := Upto(lines);
    LookAhead(acc, lines);
    LookAhead([], lines);
    assert [] + u == u;
    FlushTwice(acc, u);
    AtMostBefore(Flush(acc), Flush(u), Flush(acc + u), Beyond(lines));
  }

  // -------- lines that may be cut at --------

  // A line that is made of carriage returns alone has no data on one of its sides.
  predicate SteadyAt(acc: seq<string>, lines: seq<string>, k: nat)
    requires k < |lines|
  {
    Hollow(lines[k]) ==> AllBlank(Since(acc, lines[..k])) || AllBlank(Upto(lines[k + 1..]))
  }

  predicate SteadyFrom(acc: seq<string>, lines: seq<string>) {
    forall k :: 0 <= k < |lines| ==> SteadyAt(acc, lines, k)
  }

  lemma SteadyNext(acc: seq<string>, lines: seq<string>)
    requires lines != [] && SteadyFrom(acc, lines)
    ensures SteadyFrom(if lines[0] == "" then [] else acc + OneData(lines[0]), lines[1..])
  {
    var t, next := lines[1..], if lines[0] == "" then [] else acc + OneData(lines[0]);
    forall k | 0 <= k < |t| ensures SteadyAt(next, t, k) {
      assert SteadyAt(acc, lines, k + 1);
      assert lines[..k + 1][1..] == t[..k] && t[k + 1..] == lines[k + 1 + 1..];
    }
  }

  lemma {:induction false} SinceLess(acc: seq<string>, lines: seq<string>)
    requires AllBlank(Since(acc, lines))
    ensures AllBlank(Since([], lines))
    decreases lines
  {
    SinceIs(acc, lines);
    SinceIs([], lines);
    AllBlankConcat(acc, Since([], lines));
  }

  // What was there before the lines stays in front, until an empty line.
  lemma {:induction false} SinceIs(acc: seq<string>, lines: seq<string>)
    ensures Since(acc, lines) == Since([], lines) || Since(acc, lines) == acc + Since([], lines)
    decreases lines
  {
    if lines != [] && lines[0] != "" {
      var d := OneData(lines[0]);
      SinceIs(acc + d, lines[1..]);
      SinceIs([] + d, lines[1..]);
      SinceStep(acc, d, lines[1..]);
    } else {
      assert acc + [] == acc;
    }
  }

  lemma {:induction false} SinceStep(acc: seq<string>, d: seq<string>, lines: seq<string>)
    ensures Since(acc + d, lines) == Since([] + d, lines) || Since(acc + d, lines) == acc + Since([] + d, lines)
    decreases lines
  {
    if lines == [] {
      assert [] + d == d;
    } else if lines[0] != "" {
      var e := OneData(lines[0]);
      assert acc + d + e == acc + (d + e) && [] + d + e == [] + (d + e);
      SinceStep(acc, d + e, lines[1..]);
    }
  }

  // Steady lines keep their data, whatever carriage returns they lose.
  lemma {:induction false} ShornSame(acc: seq<string>, a: seq<string>, b: seq<string>)
    requires AllShorn(a, b) && SteadyFrom(acc, b)
    ensures LineDatas(acc, a) == LineDatas(acc, b)
    decreases a
  {
    if a != [] {
      assert AllShorn(a[1..], b[1..]);
      SteadyNext(acc, b);
      if b[0] == "" {
        ShornSame([], a[1..], b[1..]);
      } else if a[0] == "" {
        assert b[0][0..] == b[0] && b[..0] == [];
        assert Hollow(b[0]) && SteadyAt(acc, b, 0);
        HollowHasNoData(b[0]);
        assert acc + [] == acc;
        SteadyWithout(acc, b[1..]);
        ShornSame([], a[1..], b[1..]);
        EndEarly(acc, b[1..]);
      } else {
        ShornData(a[0], b[0]);
        ShornSame(acc + OneData(a[0]), a[1..], b[1..]);
      }
    }
  }

  lemma SteadyWithout(acc: seq<string>, lines: seq<string>)
    requires SteadyFrom(acc, lines)
    ensures SteadyFrom([], lines)
  {
    forall k | 0 <= k < |lines| ensures SteadyAt([], lines, k) {
      assert SteadyAt(acc, lines, k);
      if AllBlank(Since(acc, lines[..k])) { SinceLess(acc, lines[..k]); }
    }
  }

  // When such a line between data becomes empty, there is less.
  lemma HollowEmptied(a: seq<string>, b: seq<string>, k: nat)
    requires AllShorn(a, b) && k < |b| && !SteadyAt([], b, k) && a[k] == ""
    ensures Weight(LineDatas([], a)) < Weight(LineDatas([], b))
  {
    var cut := b[..k] + ([""] + b[k + 1..]);
    AroundAt(b, k);
    EmptiedBetween(b[..k], b[k], b[k + 1..]);
    forall i | 0 <= i < |a| ensures Shorn(a[i], cut[i]) {
      assert cut[i] == if i == k then "" else b[i];
    }
    ShornAtMost([], a, cut);
  }

  lemma AroundAt(b: seq<string>, k: nat)
    requires k < |b|
    ensures b == b[..k] + ([b[k]] + b[k + 1..])
  {
  }

  lemma EmptiedBetween(x: seq<string>, line: string, y: seq<string>)
    requires Hollow(line) && !AllBlank(Since([], x)) && !AllBlank(Upto(y))
    ensures Weight(LineDatas([], x + ([""] + y))) < Weight(LineDatas([], x + ([line] + y)))
  {
    var acc := Since([], x);
    LookBack([], x, [""] + y);
    LookBack([], x, [line] + y);
    Emptied(acc, line, y);
    AtMostBehind(Front([], x), LineDatas(acc, [""] + y), LineDatas(acc, [line] + y));
  }

  lemma Emptied(acc: seq<string>, line: string, y: seq<string>)
    requires Hollow(line) && !AllBlank(acc) && !AllBlank(Upto(y))
    ensures Weight(LineDatas(acc, [""] + y)) < Weight(LineDatas(acc, [line] + y))
  {
    assert ([""] + y)[1..] == y && ([line] + y)[1..] == y;
    HollowHasNoData(line);
    assert acc + [] == acc;
    EndEarly(acc, y);
  }

  // -------- texts as lines --------

  function DropReturn(line: string): string { if line != "" && Last(line) == '\r' then Init(line) else line }

  function Drops(lines: seq<string>): (r: seq<string>)
    ensures |r| == |lines| && forall i :: 0 <= i < |r| ==> r[i] == DropReturn(lines[i])
  {
    if lines == [] then [] else [DropReturn(lines[0])] + Drops(lines[1..])
  }

  // The lines of a normalised text: all but the last have a line end to lose a carriage return to.
  function Normal(lines: seq<string>): seq<string>
    requires lines != []
  {
    Drops(Init(lines)) + [Last(lines)]
  }

  // The lines of two texts, one behind the other
  function Glue(a: seq<string>, b: seq<string>): seq<string>
    requires a != [] && b != []
  {
    Init(a) + ([Last(a) + b[0]] + b[1..])
  }

  lemma {:induction false} LinesConcat(s: string, t: string)
    ensures Lines(s + t) == Glue(Lines(s), Lines(t))
  {
    if s == "" {
      assert s + t == t && Init(Lines(s)) == [] && "" + Lines(t)[0] == Lines(t)[0];
    } else {
      assert (s + t)[1..] == s[1..] + t && (s + t)[0] == s[0];
      LinesConcat(s[1..], t);
      if s[0] == '\n' {
        GlueEmpty(Lines(s[1..]), Lines(t));
      } else {
        GlueBefore(s[0], Lines(s[1..]), Lines(t));
      }
    }
  }

  lemma GlueEmpty(a: seq<string>, b: seq<string>)
    requires a != [] && b != []
    ensures Glue([""] + a, b) == [""] + Glue(a, b)
  {
    assert Init([""] + a) == [""] + Init(a);
  }

  lemma GlueBefore(c: char, a: seq<string>, b: seq<string>)
    requires a != [] && b != []
    ensures Glue(Before(c, a), b) == Before(c, Glue(a, b))
  {
    if |a| == 1 {
      assert ([c] + a[0]) + b[0] == [c] + (a[0] + b[0]);
    } else {
      assert Init(Before(c, a)) == Before(c, Init(a));
    }
  }

  lemma {:induction false} LinesNormal(s: string)
    ensures Lines(Normalize(s)) == Normal(Lines(s))
  {
    if s == "" {
    } else if |s| >= 2 && s[0] == '\r' && s[1] == '\n' {
      LinesNormal(s[2..]);
      assert s == "\r" + ("\n" + s[2..]);
      LinesOf("\r", s[2..]);
      assert ("\n" + Normalize(s[2..]))[1..] == Normalize(s[2..]);
      NormalCons("\r", Lines(s[2..]));
    } else {
      LinesNormal(s[1..]);
      assert ([s[0]] + Normalize(s[1..]))[1..] == Normalize(s[1..]);
      if s[0] == '\n' {
        NormalCons("", Lines(s[1..]));
      } else {
        FirstLine(s[1..]);
        NormalBefore(s[0], Lines(s[1..]));
      }
    }
  }

  lemma FirstLine(s: string)
    ensures |Lines(s)| > 1 && Lines(s)[0] == "" ==> s != "" && s[0] == '\n'
  {
  }

  lemma NormalCons(line: string, lines: seq<string>)
    requires lines != []
    ensures Normal([line] + lines) == [DropReturn(line)] + Normal(lines)
  {
    assert Init([line] + lines) == [line] + Init(lines);
    DropsCons(line, Init(lines));
  }

  lemma DropsCons(line: string, lines: seq<string>)
    ensures Drops([line] + lines) == [DropReturn(line)] + Drops(lines)
  {
    assert ([line] + lines)[1..] == lines;
  }

  lemma NormalBefore(c: char, lines: seq<string>)
    requires lines != [] && (c == '\r' && |lines| > 1 ==> lines[0] != "")
    ensures Normal(Before(c, lines)) == Before(c, Normal(lines))
  {
    if |lines| == 1 {
      assert Init(Before(c, lines)) == [] && Init(lines) == [];
    } else {
      forall i | 0 <= i < |lines| ensures Normal(Before(c, lines))[i] == Before(c, Normal(lines))[i] {
        NormalAt(Before(c, lines), i);
        NormalAt(lines, i);
        if i == 0 { DropBefore(c, lines[0]); }
      }
    }
  }

  lemma DropBefore(c: char, line: string)
    requires c == '\r' ==> line != ""
    ensures DropReturn([c] + line) == [c] + DropReturn(line)
  {
    if line != "" {
      assert Init([c] + line) == [c] + Init(line);
    }
  }

  lemma NormalAt(lines: seq<string>, i: nat)
    requires i < |lines|
    ensures |Normal(lines)| == |lines|
    ensures Normal(lines)[i] == if i < |lines| - 1 then DropReturn(lines[i]) else lines[i]
  {
  }

  lemma DropIsShorn(line: string)
    ensures Shorn(DropReturn(line), line) && Shorn(line, line)
  {
  }

  // Normalising the first part of a text first only takes away more carriage returns.
  lemma NormalTwice(x: seq<string>, y: seq<string>)
    requires x != [] && y != []
    ensures AllShorn(Normal(Glue(Normal(x), y)), Normal(Glue(x, y)))
  {
    var a, b := Glue(Normal(x), y), Glue(x, y);
    forall i | 0 <= i < |b| ensures Shorn(Normal(a)[i], Normal(b)[i]) {
      NormalAt(a, i);
      NormalAt(b, i);
      if i < |x| { NormalAt(x, i); }
      NormalTwiceAt(x, y, i);
      DropIsShorn(b[i]);
      DropIsShorn(DropReturn(b[i]));
    }
  }

  lemma NormalTwiceAt(x: seq<string>, y: seq<string>, i: nat)
    requires x != [] && y != [] && i < |x| + |y| - 1
    ensures Glue(Normal(x), y)[i] == if i < |x| - 1 then DropReturn(Glue(x, y)[i]) else Glue(x, y)[i]
  {
  }

  // -------- events as lines --------

  lemma {:induction false} SplitHead(s: string) returns (rest: string)
    requires |Split(s)| > 1
    ensures s == Split(s)[0] + (BLANK + rest) && Split(s) == [Split(s)[0]] + Split(rest) && |rest| < |s|
  {
    if StartsBlank(s) {
      rest := s[2..];
      assert "" + (BLANK + rest) == s;
    } else {
      rest := SplitHead(s[1..]);
      var p := Split(s[1..]);
      assert s == [s[0]] + (p[0] + (BLANK + rest));
      assert Split(s) == [[s[0]] + p[0]] + Split(rest);
    }
  }

  predicate NoPair(s: string) { forall i :: 0 <= i < |s| - 1 && s[i] == '\n' ==> s[i + 1] != '\n' }

  lemma {:induction false} FirstHasNoPair(s: string)
    ensures NoPair(Split(s)[0]) && Split(s)[0] <= s
  {
    if s != "" && !StartsBlank(s) {
      FirstHasNoPair(s[1..]);
      var e := Split(s[1..])[0];
      assert e != "" ==> e[0] == s[1];
      assert forall i :: 0 < i < |[s[0]] + e| ==> ([s[0]] + e)[i] == e[i - 1];
      assert s == [s[0]] + s[1..];
    }
  }

  // Only the first line of an event, and the last, may be empty.
  predicate Solid(lines: seq<string>) { forall i :: 0 < i < |lines| - 1 ==> lines[i] != "" }

  lemma {:induction false} NoPairIsSolid(e: string)
    requires NoPair(e)
    ensures Solid(Lines(e)) && (|Lines(e)| > 1 && Lines(e)[0] == "" ==> e[0] == '\n')
  {
    if e != "" {
      assert forall i :: 0 <= i < |e[1..]| ==> e[1..][i] == e[i + 1];
      NoPairIsSolid(e[1..]);
      assert e[0] == '\n' && e[1..] != "" ==> e[1..][0] != '\n';
    }
  }

  // No line but the last is empty.
  predicate Full(lines: seq<string>) { forall i :: 0 <= i < |lines| - 1 ==> lines[i] != "" }

  // All the data lines are in one event.
  lemma {:induction false} FullIsOne(acc: seq<string>, lines: seq<string>)
    requires Full(lines)
    ensures LineDatas(acc, lines) == Flush(acc + DataLines(lines))
    decreases lines
  {
    if lines == [] {
      assert acc + [] == acc;
    } else if lines[0] == "" {
      assert |lines| == 1;
      EmptyIsOne(acc, lines);
    } else {
      var d := OneData(lines[0]);
      FullIsOne(acc + d, lines[1..]);
      MoreData(acc, lines);
    }
  }

  lemma EmptyIsOne(acc: seq<string>, lines: seq<string>)
    requires |lines| == 1 && lines[0] == ""
    ensures LineDatas(acc, lines) == Flush(acc + DataLines(lines))
  {
    assert lines[1..] == [] && DataLines(lines) == [] && acc + [] == acc;
    NothingBefore([]);
    assert Flush(acc) + [] == Flush(acc);
  }

  lemma {:induction false} FullUpto(lines: seq<string>)
    requires Full(lines)
    ensures Upto(lines) == DataLines(lines)
  {
    if lines != [] && lines[0] != "" {
      FullUpto(lines[1..]);
    } else if lines != [] {
      assert lines[1..] == [];
    }
  }

  lemma {:induction false} FullSince(acc: seq<string>, lines: seq<string>)
    requires forall i :: 0 <= i < |lines| ==> lines[i] != ""
    ensures Since(acc, lines) == acc + DataLines(lines)
    decreases lines
  {
    if lines == [] {
      assert acc + [] == acc;
    } else {
      var d := OneData(lines[0]);
      FullSince(acc + d, lines[1..]);
      MoreData(acc, lines);
    }
  }

  lemma MoreData(acc: seq<string>, lines: seq<string>)
    requires lines != []
    ensures (acc + OneData(lines[0])) + DataLines(lines[1..]) == acc + DataLines(lines)
  {
    var d, more := OneData(lines[0]), DataLines(lines[1..]);
    assert DataLines(lines) == d + more;
    assert (acc + d) + more == acc + (d + more);
  }

  lemma NothingBefore(datas: seq<string>)
    ensures [] + datas == datas && Flush([]) == []
  {
    TrimNothing("");
  }

  lemma SolidIsOne(lines: seq<string>)
    requires Solid(lines) && lines != []
    ensures LineDatas([], lines) == Flush(DataLines(lines))
  {
    NothingBefore(DataLines(lines));
    NothingBefore(DataLines(lines[1..]));
    if lines[0] == "" {
      FullIsOne([], lines[1..]);
      NothingBefore(Flush(DataLines(lines)));
    } else {
      FullIsOne([], lines);
    }
  }

  lemma SolidSince(lines: seq<string>, k: nat)
    requires Solid(lines) && k < |lines|
    ensures Since([], lines[..k]) == DataLines(lines[..k])
  {
    var t := lines[..k];
    NothingBefore(DataLines(t));
    if t != [] && t[0] == "" {
      NothingBefore(DataLines(t[1..]));
      FullSince([], t[1..]);
    } else {
      FullSince([], t);
    }
  }

  lemma SolidUpto(lines: seq<string>, k: nat)
    requires Solid(lines) && k < |lines|
    ensures Upto(lines[k + 1..]) == DataLines(lines[k + 1..])
  {
    FullUpto(lines[k + 1..]);
  }

  lemma LinesApart(e: string, rest: string)
    ensures Lines(e + (BLANK + rest)) == Lines(e) + ([""] + Lines(rest))
  {
    var b := BLANK + rest;
    assert b[1..][1..] == rest && Lines(b) == [""] + ([""] + Lines(rest));
    LinesConcat(e, b);
    GlueApart(Lines(e), Lines(rest));
  }

  lemma GlueApart(a: seq<string>, b: seq<string>)
    requires a != [] && b != []
    ensures Glue(a, [""] + ([""] + b)) == a + ([""] + b)
  {
    assert Last(a) + "" == Last(a) && ([""] + ([""] + b))[1..] == [""] + b;
    assert Init(a) + [Last(a)] == a;
  }

  lemma DatasOfEvent(e: string)
    requires NoPair(e)
    ensures Datas([e]) == LineDatas([], Lines(e))
  {
    var events: seq<string> := [e];
    assert events[1..] == [];
    NoPairIsSolid(e);
    SolidIsOne(Lines(e));
  }

  // The lines of some events that more follow
  function Done(events: seq<string>): seq<string> {
    if events == [] then [] else Lines(events[0]) + ([""] + Done(events[1..]))
  }

  lemma {:induction false} DoneDatas(events: seq<string>, more: seq<string>)
    requires forall i :: 0 <= i < |events| ==> NoPair(events[i])
    ensures LineDatas([], Done(events) + more) == Datas(events) + LineDatas([], more)
  {
    if events == [] {
      assert Done(events) + more == more;
      NothingBefore(LineDatas([], more));
    } else {
      DoneDatas(events[1..], more);
      DatasOfEvent(events[0]);
      DatasConcat([events[0]], events[1..]);
      assert [events[0]] + events[1..] == events;
      DoneDatasStep(Lines(events[0]), Datas([events[0]]), Done(events[1..]), Datas(events[1..]), more);
    }
  }

  lemma DoneDatasStep(e: seq<string>, d: seq<string>, done: seq<string>, r: seq<string>, more: seq<string>)
    requires LineDatas([], e) == d && LineDatas([], done + more) == r + LineDatas([], more)
    ensures LineDatas([], (e + ([""] + done)) + more) == (d + r) + LineDatas([], more)
  {
    Regrouped(e, [""], done, more);
    LineDatasApart(e, done + more);
    assert d + (r + LineDatas([], more)) == (d + r) + LineDatas([], more);
  }

  lemma Regrouped(a: seq<string>, b: seq<string>, c: seq<string>, d: seq<string>)
    ensures (a + (b + c)) + d == a + (b + (c + d))
  {
  }

  lemma LineDatasApart(a: seq<string>, b: seq<string>)
    ensures LineDatas([], a + ([""] + b)) == LineDatas([], a) + LineDatas([], b)
  {
    LookBack([], a, [""] + b);
    LookBack([], a, []);
    assert a + [] == a && ([""] + b)[1..] == b;
  }

  lemma {:induction false} AllHaveNoPair(s: string)
    ensures forall i :: 0 <= i < |Split(s)| ==> NoPair(Split(s)[i])
    decreases |s|
  {
    FirstHasNoPair(s);
    if |Split(s)| > 1 {
      var rest := SplitHead(s);
      AllHaveNoPair(rest);
    }
  }

  // The lines of a text, by its events
  lemma {:induction false} LinesDone(s: string)
    ensures Lines(s) == Done(Init(Split(s))) + Lines(Last(Split(s)))
    decreases |s|
  {
    if |Split(s)| == 1 {
      SplitOne(s);
    } else {
      var rest := SplitHead(s);
      LinesDone(rest);
      LinesDoneStep(s, Split(s)[0], rest, Split(rest));
    }
  }

  lemma LinesDoneStep(s: string, e: string, rest: string, parts: seq<string>)
    requires s == e + (BLANK + rest) && Split(s) == [e] + parts && parts != []
    requires Lines(rest) == Done(Init(parts)) + Lines(Last(parts))
    ensures Lines(s) == Done(Init(Split(s))) + Lines(Last(Split(s)))
  {
    LinesApart(e, rest);
    InitCons(e, parts);
    Regrouped(Lines(e), [""], Done(Init(parts)), Lines(Last(parts)));
  }

  lemma InitCons(e: string, events: seq<string>)
    requires events != []
    ensures Last([e] + events) == Last(events) && Init([e] + events) == [e] + Init(events)
    ensures Done([e] + Init(events)) == Lines(e) + ([""] + Done(Init(events)))
  {
    assert ([e] + Init(events))[1..] == Init(events);
  }

  // The data of a text's events are those of its lines.
  lemma DatasAreLines(s: string)
    ensures Datas(Split(s)) == LineDatas([], Lines(s))
  {
    AllHaveNoPair(s);
    LinesDone(s);
    InitLast(Split(s));
    DatasPush(Init(Split(s)), Last(Split(s)));
  }

  lemma DatasPush(events: seq<string>, last: string)
    requires NoPair(last) && forall i :: 0 <= i < |events| ==> NoPair(events[i])
    ensures Datas(events + [last]) == LineDatas([], Done(events) + Lines(last))
  {
    DatasConcat(events, [last]);
    DoneDatas(events, Lines(last));
    DatasOfEvent(last);
  }

  lemma InitLast(s: seq<string>)
    requires s != []
    ensures Init(s) + [Last(s)] == s
  {
  }

  // -------- every way of cutting a text --------

  // The lines that the reader has seen in the end
  function Seen(buffer: string, chunks: seq<string>): seq<string>
    decreases chunks
  {
    var n := Normalize(if chunks == [] then buffer else buffer + chunks[0]);
    if chunks == [] then Lines(n) else Done(Init(Split(n))) + Seen(Last(Split(n)), chunks[1..])
  }

  // What it has read are their data.
  lemma {:induction false} EventsAreSeen(buffer: string, chunks: seq<string>)
    ensures Datas(Events(buffer, chunks)) == LineDatas([], Seen(buffer, chunks))
    decreases chunks
  {
    if chunks == [] {
      DatasAreLines(Normalize(buffer));
    } else {
      var n := Normalize(buffer + chunks[0]);
      var z := Last(Split(n));
      EventsAreSeen(z, chunks[1..]);
      AllHaveNoPair(n);
      DoneDatas(Init(Split(n)), Seen(z, chunks[1..]));
      DatasConcat(Init(Split(n)), Events(z, chunks[1..]));
    }
  }

  // They are those of the whole text, but for some carriage returns.
  lemma {:induction false} SeenAreShorn(buffer: string, chunks: seq<string>)
    ensures AllShorn(Seen(buffer, chunks), Lines(Normalize(buffer + Concat(chunks))))
    decreases chunks
  {
    if chunks == [] {
      assert buffer + Concat(chunks) == buffer;
      AllShornSelf(Lines(Normalize(buffer)));
    } else {
      var x, r := buffer + chunks[0], Concat(chunks[1..]);
      var z := Last(Split(Normalize(x)));
      assert buffer + Concat(chunks) == x + r;
      SeenAreShorn(z, chunks[1..]);
      TextLines(z, r);
      TextLines(x, r);
      LinesDone(Normalize(x));
      LinesNormal(x);
      ResumeShorn(Lines(x), Lines(r), Done(Init(Split(Normalize(x)))), Lines(z), Seen(z, chunks[1..]));
    }
  }

  lemma TextLines(s: string, t: string)
    ensures Lines(Normalize(s + t)) == Normal(Glue(Lines(s), Lines(t)))
  {
    LinesConcat(s, t);
    LinesNormal(s + t);
  }

  lemma ResumeShorn(x: seq<string>, r: seq<string>, done: seq<string>, z: seq<string>, seen: seq<string>)
    requires x != [] && r != [] && z != [] && Normal(x) == done + z
    requires AllShorn(seen, Normal(Glue(z, r)))
    ensures AllShorn(done + seen, Normal(Glue(x, r)))
  {
    var n := |done|;
    var x2 := x[n..];
    assert x == x[..n] + x2;
    NormalFrom(x, n);
    NormalTwice(x2, r);
    AllShornTwice(seen, Normal(Glue(z, r)), Normal(Glue(x2, r)));
    GlueFrom(x[..n], x2, r);
    NormalBehind(x[..n], Glue(x2, r));
    AllShornSelf(done);
    AllShornConcat(done, done, seen, Normal(Glue(x2, r)));
  }

  lemma AllShornConcat(a: seq<string>, b: seq<string>, c: seq<string>, d: seq<string>)
    requires AllShorn(a, b) && AllShorn(c, d)
    ensures AllShorn(a + c, b + d)
  {
  }

  lemma NormalFrom(x: seq<string>, n: nat)
    requires n < |x|
    ensures Normal(x)[..n] == Drops(x[..n]) && Normal(x)[n..] == Normal(x[n..])
  {
    forall i | 0 <= i < n ensures Normal(x)[..n][i] == Drops(x[..n])[i] {
      NormalAt(x, i);
    }
    forall i | 0 <= i < |x| - n ensures Normal(x)[n..][i] == Normal(x[n..])[i] {
      NormalAt(x, n + i);
      NormalAt(x[n..], i);
    }
  }

  lemma NormalBehind(a: seq<string>, b: seq<string>)
    requires b != []
    ensures Normal(a + b) == Drops(a) + Normal(b)
  {
    NormalFrom(a + b, |a|);
    assert (a + b)[..|a|] == a && (a + b)[|a|..] == b;
  }

  lemma GlueFrom(a: seq<string>, x: seq<string>, r: seq<string>)
    requires x != [] && r != []
    ensures Glue(a + x, r) == a + Glue(x, r)
  {
    assert Init(a + x) == a + Init(x);
  }

  // -------- when it makes no difference --------

  // What parseSseData makes of some lines of an event
  function LinesData(lines: seq<string>): string { Trim(JoinLines(DataLines(lines))) }

  // No line of an event that is made of carriage returns alone has data both before and behind it.
  predicate EventSteady(e: string) {
    forall k {:trigger Lines(e)[k]} :: 0 <= k < |Lines(e)| && Hollow(Lines(e)[k]) ==>
      LinesData(Lines(e)[..k]) == "" || LinesData(Lines(e)[k + 1..]) == ""
  }

  // No event of the whole text has such a line.
  predicate Steady(text: string) { forall e :: e in Split(Normalize(text)) ==> EventSteady(e) }

  lemma NoData(lines: seq<string>)
    ensures LinesData(lines) == "" <==> AllBlank(DataLines(lines))
  {
    TrimNothing(JoinLines(DataLines(lines)));
    BlankJoin(DataLines(lines));
  }

  lemma {:induction false} UptoStops(a: seq<string>, b: seq<string>)
    ensures Upto(a + ([""] + b)) == Upto(a)
  {
    if a != [] {
      assert (a + ([""] + b))[1..] == a[1..] + ([""] + b) && (a + ([""] + b))[0] == a[0];
      UptoStops(a[1..], b);
    } else {
      assert a + ([""] + b) == [""] + b;
    }
  }

  // The lines of an event are as steady alone as before others, ...
  lemma SteadyInside(a: seq<string>, b: seq<string>, k: nat)
    requires Solid(a) && k < |a|
    ensures SteadyAt([], a + ([""] + b), k) <==>
      (Hollow(a[k]) ==> LinesData(a[..k]) == "" || LinesData(a[k + 1..]) == "")
  {
    var s := a + ([""] + b);
    SolidSince(a, k);
    SolidUpto(a, k);
    UptoStops(a[k + 1..], b);
    assert s[..k] == a[..k] && s[k + 1..] == a[k + 1..] + ([""] + b);
    NoData(a[..k]);
    NoData(a[k + 1..]);
  }

  lemma SteadyAlone(a: seq<string>, k: nat)
    requires Solid(a) && k < |a|
    ensures SteadyAt([], a, k) <==> (Hollow(a[k]) ==> LinesData(a[..k]) == "" || LinesData(a[k + 1..]) == "")
  {
    SolidSince(a, k);
    SolidUpto(a, k);
    NoData(a[..k]);
    NoData(a[k + 1..]);
  }

  // ... and so are those behind it.
  lemma SteadyBehind(a: seq<string>, b: seq<string>, k: nat)
    requires k < |b|
    ensures SteadyAt([], a + ([""] + b), |a| + 1 + k) <==> SteadyAt([], b, k)
  {
    var s, n := a + ([""] + b), |a| + 1 + k;
    assert s[..n] == a + ([""] + b[..k]) && s[n + 1..] == b[k + 1..] && s[n] == b[k];
    SinceConcat([], a, [""] + b[..k]);
    assert ([""] + b[..k])[1..] == b[..k];
  }

  lemma SteadyApart(e: string, b: seq<string>)
    requires NoPair(e)
    ensures SteadyFrom([], Lines(e) + ([""] + b)) <==> EventSteady(e) && SteadyFrom([], b)
  {
    var a := Lines(e);
    var s := a + ([""] + b);
    NoPairIsSolid(e);
    forall k | 0 <= k < |a|
      ensures SteadyAt([], s, k) <==> (Hollow(a[k]) ==> LinesData(a[..k]) == "" || LinesData(a[k + 1..]) == "") {
      SteadyInside(a, b, k);
    }
    forall k | 0 <= k < |b| ensures SteadyAt([], s, |a| + 1 + k) <==> SteadyAt([], b, k) {
      SteadyBehind(a, b, k);
    }
    if EventSteady(e) && SteadyFrom([], b) {
      forall k | 0 <= k < |s| ensures SteadyAt([], s, k) {
        assert k > |a| ==> SteadyAt([], b, k - |a| - 1) && |a| + 1 + (k - |a| - 1) == k;
      }
    }
  }

  lemma {:induction false} SteadyDone(events: seq<string>, last: string)
    requires NoPair(last) && forall i :: 0 <= i < |events| ==> NoPair(events[i])
    ensures SteadyFrom([], Done(events) + Lines(last)) <==>
      EventSteady(last) && forall i :: 0 <= i < |events| ==> EventSteady(events[i])
  {
    if events == [] {
      assert Done(events) + Lines(last) == Lines(last);
      NoPairIsSolid(last);
      forall k | 0 <= k < |Lines(last)|
        ensures SteadyAt([], Lines(last), k) <==>
          (Hollow(Lines(last)[k]) ==> LinesData(Lines(last)[..k]) == "" || LinesData(Lines(last)[k + 1..]) == "") {
        SteadyAlone(Lines(last), k);
      }
    } else {
      var rest := events[1..];
      SteadyDone(rest, last);
      SteadyApart(events[0], Done(rest) + Lines(last));
      Regrouped(Lines(events[0]), [""], Done(rest), Lines(last));
      assert forall i :: 0 < i < |events| ==> events[i] == rest[i - 1];
    }
  }

  lemma SteadyIff(text: string)
    ensures Steady(text) <==> SteadyFrom([], Lines(Normalize(text)))
  {
    var events := Split(Normalize(text));
    AllHaveNoPair(Normalize(text));
    LinesDone(Normalize(text));
    SteadyDone(Init(events), Last(events));
    EachSteady(events);
  }

  lemma EachSteady(events: seq<string>)
    requires events != []
    ensures (forall e :: e in events ==> EventSteady(e)) <==>
      EventSteady(Last(events)) && forall i :: 0 <= i < |events| - 1 ==> EventSteady(Init(events)[i])
  {
    assert forall e :: e in events <==> e == Last(events) || e in Init(events) by {
      assert events == Init(events) + [Last(events)];
    }
  }

  // -------- a cut that makes one --------

  lemma {:induction false} CutBehind(text: string, k: nat) returns (a: string, b: string)
    requires k < |Lines(text)| - 1
    ensures text == a + b && Lines(a) == Lines(text)[..k + 1] + [""]
  {
    var t := text[1..];
    if text[0] == '\n' && k == 0 {
      a, b := "\n", t;
      assert "\n"[1..] == "";
    } else if text[0] == '\n' {
      a, b := CutBehind(t, k - 1);
      var x := Lines(t)[..k];
      a := "\n" + a;
      assert a[1..] == text[1..][..|a| - 1];
      assert Lines(text)[..k + 1] == [""] + x;
    } else {
      a, b := CutBehind(t, k);
      BeforeTake(text[0], Lines(t), k);
      a := [text[0]] + a;
      assert a[1..] == text[1..][..|a| - 1];
    }
  }

  lemma BeforeTake(c: char, lines: seq<string>, k: nat)
    requires k < |lines|
    ensures Before(c, lines[..k + 1] + [""]) == Before(c, lines)[..k + 1] + [""]
  {
  }

  function Empties(n: nat): seq<string> { if n == 0 then [] else [""] + Empties(n - 1) }

  lemma {:induction false} ConcatEmpties(n: nat, b: string)
    ensures Concat(Empties(n) + [b]) == b
  {
    if n == 0 {
      assert [] + [b] == [b] && [b][1..] == [] && b + "" == b;
    } else {
      ConcatEmpties(n - 1, b);
      EmptiesNext(n, b);
      assert "" + b == b;
    }
  }

  lemma EmptiesNext(n: nat, b: string)
    requires n > 0
    ensures var c := Empties(n) + [b]; c[0] == "" && c[1..] == Empties(n - 1) + [b]
  {
    assert Empties(n) + [b] == [""] + (Empties(n - 1) + [b]);
  }

  lemma {:induction false} DoneEndsEmpty(events: seq<string>)
    ensures Done(events) != [] ==> Last(Done(events)) == ""
  {
    if events != [] {
      DoneEndsEmpty(events[1..]);
      assert Done(events[1..]) == [] ==> Done(events) == Lines(events[0]) + [""];
    }
  }

  // A last line but one of carriage returns, which n passes and the end of the text make empty
  predicate Pends(lines: seq<string>, n: nat) {
    |lines| >= 2 && Last(lines) == "" && Returns(lines[|lines| - 2]) && |lines[|lines| - 2]| <= n + 1
  }

  predicate Pending(y: string, n: nat) { Pends(Lines(y), n) }

  predicate EmptyAt(seen: seq<string>, k: int) { 0 <= k < |seen| && seen[k] == "" }

  predicate EmptiedIn(y: string, chunks: seq<string>) { EmptyAt(Seen(y, chunks), |Lines(y)| - 2) }

  // Chunks that are empty have it normalised until it is empty too.
  lemma {:induction false} PassEmpties(y: string, b: string, n: nat)
    requires Pending(y, n)
    ensures EmptiedIn(y, Empties(n) + [b])
    decreases n
  {
    if Pending(y, 0) {
      ConcatEmpties(n, b);
      ShortIsEmptied(y, b, Empties(n) + [b]);
    } else {
      var z := PassOnce(y, n);
      PassEmpties(z, b, n - 1);
      SeenNext(y, b, n);
      PassStep(y, z, Done(Init(Split(Normalize(y)))), Empties(n) + [b], Empties(n - 1) + [b]);
    }
  }

  lemma PassStep(y: string, z: string, done: seq<string>, chunks: seq<string>, fewer: seq<string>)
    requires Seen(y, chunks) == done + Seen(z, fewer) && |done| + |Lines(z)| == |Lines(y)| && EmptiedIn(z, fewer)
    ensures EmptiedIn(y, chunks)
  {
    EmptiedBehind(done, Seen(z, fewer), Seen(y, chunks), |Lines(z)| - 2, |Lines(y)| - 2);
  }

  lemma EmptiedBehind(done: seq<string>, seen: seq<string>, all: seq<string>, k: int, q: int)
    requires all == done + seen && EmptyAt(seen, k) && q == |done| + k
    ensures EmptyAt(all, q)
  {
  }

  lemma SeenNext(y: string, b: string, n: nat)
    requires n > 0
    ensures
      var parts := Split(Normalize(y));
      Seen(y, Empties(n) + [b]) == Done(Init(parts)) + Seen(Last(parts), Empties(n - 1) + [b])
  {
    EmptiesNext(n, b);
    assert y + "" == y;
  }

  lemma ShortIsEmptied(y: string, b: string, chunks: seq<string>)
    requires Pending(y, 0) && Concat(chunks) == b
    ensures EmptiedIn(y, chunks)
  {
    SeenAreShorn(y, chunks);
    TextLines(y, b);
    NormalAt(Glue(Lines(y), Lines(b)), |Lines(y)| - 2);
  }

  // One of them takes a carriage return away and leaves the line in the buffer.
  lemma PassOnce(y: string, n: nat) returns (z: string)
    requires Pending(y, n) && !Pending(y, 0)
    ensures z == Last(Split(Normalize(y))) && n > 0 && Pending(z, n - 1)
    ensures |Done(Init(Split(Normalize(y))))| + |Lines(z)| == |Lines(y)|
  {
    var m := Normalize(y);
    z := Last(Split(m));
    LinesNormal(y);
    LinesDone(m);
    DoneEndsEmpty(Init(Split(m)));
    PassLines(Lines(y), Done(Init(Split(m))), Lines(z), n);
  }

  lemma PassLines(l: seq<string>, done: seq<string>, z: seq<string>, n: nat)
    requires Pends(l, n) && !Pends(l, 0) && Normal(l) == done + z && z != []
    requires done != [] ==> Last(done) == ""
    ensures n > 0 && Pends(z, n - 1) && |done| + |z| == |l|
  {
    NormalAt(l, |l| - 2);
    NormalAt(l, |l| - 1);
    LastTwo(Normal(l), done, z, |l| - 2);
  }

  lemma LastTwo(m: seq<string>, done: seq<string>, z: seq<string>, q: nat)
    requires m == done + z && z != [] && |m| == q + 2 && m[q] != "" && (done != [] ==> Last(done) == "")
    ensures |z| >= 2 && Last(z) == m[q + 1] && z[|z| - 2] == m[q]
  {
    assert done != [] ==> m[|done| - 1] == Last(done);
  }

  lemma FirstChunk(a: string, rest: seq<string>)
    ensures Seen("", [a] + rest) == Seen(a, [""] + rest)
  {
    assert "" + a == a && a + "" == a && ([a] + rest)[1..] == rest && ([""] + rest)[1..] == rest;
  }

  // If a line has data on both its sides, some cut reads less.
  lemma CutReadsLess(text: string, k: nat) returns (chunks: seq<string>)
    requires k < |Lines(Normalize(text))| && !SteadyAt([], Lines(Normalize(text)), k)
    ensures Concat(chunks) == text && Datas(Events("", chunks)) != Datas(Split(Normalize(text)))
  {
    var x, l := Lines(text), Lines(Normalize(text));
    LinesNormal(text);
    NormalAt(x, k);
    assert l[k + 1..] != [];
    var a, b := CutBehind(text, k);
    var n := |x[k]|;
    HollowDropped(x[k]);
    chunks := [a] + (Empties(n) + [b]);
    PassEmpties(a, b, n + 1);
    CutIs(a, b, n);
    LessIsSeen(text, k, chunks);
  }

  lemma CutIs(a: string, b: string, n: nat)
    ensures
      var chunks := [a] + (Empties(n) + [b]);
      Concat(chunks) == a + b && Seen("", chunks) == Seen(a, Empties(n + 1) + [b])
  {
    var rest := Empties(n) + [b];
    FirstChunk(a, rest);
    assert Empties(n + 1) + [b] == [""] + rest;
    ConcatEmpties(n, b);
    assert ([a] + rest)[1..] == rest;
  }

  lemma LessIsSeen(text: string, k: nat, chunks: seq<string>)
    requires Concat(chunks) == text && k < |Lines(Normalize(text))| && !SteadyAt([], Lines(Normalize(text)), k)
    requires k < |Seen("", chunks)| && Seen("", chunks)[k] == ""
    ensures Datas(Events("", chunks)) != Datas(Split(Normalize(text)))
  {
    assert "" + text == text;
    SeenAreShorn("", chunks);
    HollowEmptied(Seen("", chunks), Lines(Normalize(text)), k);
    EventsAreSeen("", chunks);
    DatasAreLines(Normalize(text));
  }

  lemma HollowDropped(line: string)
    requires Hollow(DropReturn(line))
    ensures Returns(line)
  {
  }

  // -------- when it makes no difference --------

  // What a caller sees does not depend on how the text is cut.
  ghost predicate ReadsSame(text: string) {
    forall chunks {:trigger Concat(chunks)} ::
      Concat(chunks) == text ==> ReadAlike(Events("", chunks), Split(Normalize(text)))
  }

  lemma SteadyReads(text: string, chunks: seq<string>)
    requires SteadyFrom([], Lines(Normalize(text))) && Concat(chunks) == text
    ensures Datas(Events("", chunks)) == Datas(Split(Normalize(text)))
  {
    assert "" + text == text;
    EventsAreSeen("", chunks);
    SeenAreShorn("", chunks);
    ShornSame([], Seen("", chunks), Lines(Normalize(text)));
    DatasAreLines(Normalize(text));
  }

  // Main result, exactly: for every parser, the content, the deltas and the exception are the same for
  // every way of cutting a text if and only if no event of the text has a line of carriage returns
  // alone between data and data.
  lemma ReadsSameIff(text: string)
    ensures ReadsSame(text) <==> Steady(text)
  {
    var lines := Lines(Normalize(text));
    SteadyIff(text);
    if SteadyFrom([], lines) {
      forall chunks | Concat(chunks) == text ensures ReadAlike(Events("", chunks), Split(Normalize(text))) {
        SteadyReads(text, chunks);
        ReadAlikeIff(Events("", chunks), Split(Normalize(text)));
      }
    } else {
      var k :| 0 <= k < |lines| && !SteadyAt([], lines, k);
      var chunks := CutReadsLess(text, k);
      ReadAlikeIff(Events("", chunks), Split(Normalize(text)));
    }
  }
}
