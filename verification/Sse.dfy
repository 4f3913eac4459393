/** The incremental reader of server-sent events, and the stream that the gateway produces for it. */
module Sse {
  import opened Text

  // -------- the text, as the reader treats it --------

  // buffer.replace(/\r\n/g, "\n")
  function Normalize(s: string): string {
    if s == "" then ""
    else if |s| >= 2 && s[0] == '\r' && s[1] == '\n' then "\n" + Normalize(s[2..])
    else [s[0]] + Normalize(s[1..])
  }

  const BLANK := "\n\n"

  predicate StartsBlank(s: string) { |s| >= 2 && s[0] == '\n' && s[1] == '\n' }

  // normalized.split("\n\n")
  function Split(s: string): (parts: seq<string>)
    ensures parts != []
  {
    if s == "" then [""]
    else if StartsBlank(s) then [""] + Split(s[2..])
    else Before(s[0], Split(s[1..]))
  }

  // A character in front of the first part
  function Before(c: char, parts: seq<string>): (r: seq<string>)
    requires parts != []
    ensures |r| == |parts| && r[0] == [c] + parts[0] && forall i :: 0 < i < |r| ==> r[i] == parts[i]
  {
    [[c] + parts[0]] + parts[1..]
  }

  function Init<T>(s: seq<T>): seq<T>
    requires s != []
  {
    s[..|s| - 1]
  }

  function Last<T>(s: seq<T>): T
    requires s != []
  {
    s[|s| - 1]
  }

  predicate NoCrLf(s: string) { forall i :: 0 <= i < |s| - 1 && s[i] == '\r' ==> s[i + 1] != '\n' }

  // No carriage return stands before the one that belongs to a line end.
  predicate Clean(s: string) { forall i :: 0 <= i < |s| - 2 && s[i] == '\r' && s[i + 1] == '\r' ==> s[i + 2] != '\n' }

  lemma CleanTail(s: string, n: nat)
    requires Clean(s) && n <= |s|
    ensures Clean(s[n..])
  {
    var t := s[n..];
    forall i | 0 <= i < |t| - 2 && t[i] == '\r' && t[i + 1] == '\r' ensures t[i + 2] != '\n' {
      assert s[n + i] == '\r' && s[n + i + 1] == '\r';
    }
  }

  lemma CleanCons(c: char, s: string)
    requires Clean(s) && (c == '\r' && |s| >= 2 && s[0] == '\r' ==> s[1] != '\n')
    ensures Clean([c] + s)
  {
    var t := [c] + s;
    forall i | 0 <= i < |t| - 2 && t[i] == '\r' && t[i + 1] == '\r' ensures t[i + 2] != '\n' {
      assert i > 0 ==> s[i - 1] == '\r' && s[i] == '\r';
    }
  }

  // How a normalised text begins
  lemma NormalizeHead(s: string)
    ensures (s == "") == (Normalize(s) == "")
    ensures s != "" ==> Normalize(s)[0] == if |s| >= 2 && s[0] == '\r' && s[1] == '\n' then '\n' else s[0]
  {
  }

  // Normalising a part first makes no difference to a clean text, which stays clean.
  lemma {:induction false} NormalizeTwice(x: string, r: string)
    requires Clean(x + r)
    ensures Normalize(Normalize(x) + r) == Normalize(x + r) && Clean(Normalize(x) + r)
    decreases x
  {
    if x == "" {
      assert Normalize(x) + r == x + r;
    } else if |x| >= 2 && x[0] == '\r' && x[1] == '\n' {
      assert (x + r)[2..] == x[2..] + r;
      CleanTail(x + r, 2);
      NormalizeTwice(x[2..], r);
      assert Normalize(x) + r == ['\n'] + (Normalize(x[2..]) + r);
      CleanCons('\n', Normalize(x[2..]) + r);
    } else if |x| == 1 {
      assert Normalize(x) == x;
    } else {
      NormalizeTwiceStep(x, r);
    }
  }

  lemma {:induction false} NormalizeTwiceStep(x: string, r: string)
    requires Clean(x + r) && |x| >= 2 && !(x[0] == '\r' && x[1] == '\n')
    ensures Normalize(Normalize(x) + r) == Normalize(x + r) && Clean(Normalize(x) + r)
    decreases x, 0
  {
    assert (x + r)[1..] == x[1..] + r;
    CleanTail(x + r, 1);
    NormalizeTwice(x[1..], r);
    NormalizeHead(x[1..]);
    var t := Normalize(x[1..]) + r;
    assert Normalize(x) + r == [x[0]] + t;
    assert ([x[0]] + t)[1..] == t;
    if x[0] == '\r' {
      assert (x + r)[0] == x[0] && (x + r)[1] == x[1] && (|x| >= 3 ==> (x + r)[2] == x[2]);
      assert x[1..][0] == x[1] && (|x| >= 3 ==> x[1..][1] == x[2]);
      assert t[0] == Normalize(x[1..])[0] != '\n';
      if x[1] == '\r' {
        SecondIsNoNewline(x, r);
      }
    }
    CleanCons(x[0], t);
  }

  lemma SecondIsNoNewline(x: string, r: string)
    requires Clean(x + r) && |x| >= 2 && x[0] == '\r' && x[1] == '\r'
    ensures var t := Normalize(x[1..]) + r; |t| >= 2 && t[0] == '\r' ==> t[1] != '\n'
  {
    assert |x + r| >= 3 ==> (x + r)[0] == '\r' && (x + r)[1] == '\r' && (x + r)[2] != '\n';
    if |x| >= 3 {
      assert x[1..][0] == '\r' && x[1..][1] == x[2] == (x + r)[2];
      assert x[1..][1..] == x[2..];
      assert |x| >= 4 ==> (x + r)[1] == '\r' && (x + r)[3] == x[3];
      NormalizeHead(x[2..]);
      assert Normalize(x[1..]) == ['\r'] + Normalize(x[2..]);
    } else {
      assert x[1..] == "\r" && Normalize("\r") == "\r";
    }
  }

  lemma {:induction false} NormalizeLeavesNone(x: string)
    requires Clean(x)
    ensures NoCrLf(Normalize(x))
  {
    if x == "" {
    } else if |x| >= 2 && x[0] == '\r' && x[1] == '\n' {
      CleanTail(x, 2);
      NormalizeLeavesNone(x[2..]);
    } else {
      CleanTail(x, 1);
      NormalizeLeavesNone(x[1..]);
      NormalizeHead(x[1..]);
      assert |x| >= 3 && x[0] == '\r' && x[1] == '\r' ==> x[2] != '\n';
    }
  }

  lemma {:induction false} SplitOne(y: string)
    requires |Split(y)| == 1
    ensures Split(y) == [y]
  {
    if y != "" {
      SplitOne(y[1..]);
      assert [y[0]] + y[1..] == y;
    }
  }

  lemma SplitCons(c: char, s: string)
    requires !StartsBlank([c] + s)
    ensures Split([c] + s) == Before(c, Split(s))
  {
    assert ([c] + s)[1..] == s;
  }

  lemma SplitBlank(s: string)
    ensures Split(['\n'] + (['\n'] + s)) == [""] + Split(s)
  {
    assert (['\n'] + (['\n'] + s))[2..] == s;
  }

  lemma NormalizeCons(c: char, s: string)
    requires !(c == '\r' && s != "" && s[0] == '\n')
    ensures Normalize([c] + s) == [c] + Normalize(s)
  {
    assert ([c] + s)[1..] == s;
  }

  lemma PutBefore(c: char, q: seq<string>, w: seq<string>)
    requires |q| > 1
    ensures Last(Before(c, q)) == Last(q) && Before(c, Init(q) + w) == Init(Before(c, q)) + w
  {
  }

  lemma PutBlank(q: seq<string>, w: seq<string>)
    requires q != []
    ensures Last([""] + q) == Last(q) && Init([""] + q) + w == [""] + (Init(q) + w)
  {
  }

  // A text whose start was split already can be split on from its last part.
  lemma {:induction false} SplitResume(y: string, r: string)
    requires NoCrLf(y)
    ensures Split(Normalize(y + r)) == Init(Split(y)) + Split(Normalize(Last(Split(y)) + r))
    decreases y
  {
    if |Split(y)| == 1 {
      SplitOne(y);
    } else if StartsBlank(y) {
      var t := y[2..];
      assert ['\n'] + (['\n'] + t) == y && ['\n'] + (['\n'] + (t + r)) == y + r;
      NormalizeCons('\n', t + r);
      NormalizeCons('\n', ['\n'] + (t + r));
      SplitBlank(Normalize(t + r));
      SplitBlank(t);
      SplitResume(t, r);
      PutBlank(Split(t), Split(Normalize(Last(Split(t)) + r)));
    } else {
      var c, t := y[0], y[1..];
      assert [c] + t == y && [c] + (t + r) == y + r;
      SplitCons(c, t);
      SplitManyIsLong(t);
      assert (t + r)[0] == y[1] && (t + r)[1] == y[2];
      NormalizeCons(c, t + r);
      NormalizeHead(t + r);
      SplitCons(c, Normalize(t + r));
      SplitResume(t, r);
      PutBefore(c, Split(t), Split(Normalize(Last(Split(t)) + r)));
    }
  }

  lemma SplitManyIsLong(t: string)
    ensures |Split(t)| > 1 ==> |t| >= 2
  {
    assert |t| == 1 ==> t[1..] == "" && Split("") == [""];
  }

  // What is left over is clean together with what follows.
  lemma {:induction false} CleanLast(y: string, r: string)
    requires Clean(y + r)
    ensures Clean(Last(Split(y)) + r)
    decreases y
  {
    if |Split(y)| == 1 {
      SplitOne(y);
    } else if StartsBlank(y) {
      CleanTail(y + r, 2);
      assert (y + r)[2..] == y[2..] + r;
      CleanLast(y[2..], r);
    } else {
      CleanTail(y + r, 1);
      assert (y + r)[1..] == y[1..] + r;
      CleanLast(y[1..], r);
    }
  }

  // -------- the events --------

  function Concat(chunks: seq<string>): string { if chunks == [] then "" else chunks[0] + Concat(chunks[1..]) }

  // The events that are found from a buffer on, as more chunks come
  function Events(buffer: string, chunks: seq<string>): seq<string>
    decreases chunks
  {
    if chunks == [] then Split(Normalize(buffer))
    else
      var parts := Split(Normalize(buffer + chunks[0]));
      Init(parts) + Events(Last(parts), chunks[1..])
  }

  // Main result: the events of a clean text do not depend on how it is cut.
  lemma {:induction false} AnyChunking(buffer: string, chunks: seq<string>)
    requires Clean(buffer + Concat(chunks))
    ensures Events(buffer, chunks) == Split(Normalize(buffer + Concat(chunks)))
    decreases chunks
  {
    if chunks == [] {
      assert buffer + Concat(chunks) == buffer;
    } else {
      var x, r := buffer + chunks[0], Concat(chunks[1..]);
      assert buffer + Concat(chunks) == x + r;
      NormalizeTwice(x, r);
      CleanHead(x, r);
      NormalizeLeavesNone(x);
      SplitResume(Normalize(x), r);
      CleanLast(Normalize(x), r);
      AnyChunking(Last(Split(Normalize(x))), chunks[1..]);
    }
  }

  lemma CleanHead(x: string, r: string)
    requires Clean(x + r)
    ensures Clean(x)
  {
    forall i | 0 <= i < |x| - 2 && x[i] == '\r' && x[i + 1] == '\r' ensures x[i + 2] != '\n' {
      assert (x + r)[i] == '\r' && (x + r)[i + 1] == '\r' && (x + r)[i + 2] == x[i + 2];
    }
  }

  // -------- texts that are not clean --------

  // What the parts and the blank lines between them measure
  function Size(parts: seq<string>): int { if parts == [] then -2 else Size(Init(parts)) + 2 + |Last(parts)| }

  lemma {:induction false} SizePush(a: seq<string>, b: seq<string>)
    ensures Size(a + b) == Size(a) + Size(b) + 2
  {
    if b == [] {
      assert a + b == a;
    } else {
      assert Init(a + b) == a + Init(b);
      SizePush(a, Init(b));
    }
  }

  lemma SizeBefore(c: char, parts: seq<string>)
    requires parts != []
    ensures Size(Before(c, parts)) == Size(parts) + 1
  {
    assert Before(c, parts) == [[c] + parts[0]] + parts[1..] && parts == [parts[0]] + parts[1..];
    SizePush([[c] + parts[0]], parts[1..]);
    SizePush([parts[0]], parts[1..]);
    SizeOne([c] + parts[0]);
    SizeOne(parts[0]);
  }

  lemma SizeOne(part: string)
    ensures Size([part]) == |part|
  {
    assert Init([part]) == [];
  }

  lemma {:induction false} SizeOfSplit(s: string)
    ensures Size(Split(s)) == |s|
  {
    if s == "" {
      SizeOne("");
    } else if StartsBlank(s) {
      SizeOfSplit(s[2..]);
      SizePush([""], Split(s[2..]));
      SizeOne("");
    } else {
      SizeOfSplit(s[1..]);
      SizeBefore(s[0], Split(s[1..]));
    }
  }

  lemma NormalizeCrLf(s: string)
    ensures Normalize(CRLF + s) == "\n" + Normalize(s)
  {
    assert (CRLF + s)[2..] == s;
  }

  lemma {:induction false} NormalizeConcat(a: string, b: string)
    requires a != "" && b != "" ==> !(a[|a| - 1] == '\r' && b[0] == '\n')
    ensures Normalize(a + b) == Normalize(a) + Normalize(b)
    decreases a
  {
    if a == "" {
      assert a + b == b;
    } else if |a| >= 2 && a[0] == '\r' && a[1] == '\n' {
      NormalizeConcat(a[2..], b);
      assert a == CRLF + a[2..];
      Associate(CRLF, a[2..], b);
      NormalizeCrLf(a[2..] + b);
      NormalizeCrLf(a[2..]);
      Associate("\n", Normalize(a[2..]), Normalize(b));
    } else {
      NormalizeConcat(a[1..], b);
      NormalizeConcatCons(a[0], a[1..], b);
      assert [a[0]] + a[1..] == a;
    }
  }

  lemma Associate(a: string, b: string, c: string)
    ensures (a + b) + c == a + (b + c)
  {
  }

  lemma NormalizeConcatCons(c: char, t: string, b: string)
    requires !(c == '\r' && t + b != "" && (t + b)[0] == '\n') && Normalize(t + b) == Normalize(t) + Normalize(b)
    ensures Normalize(([c] + t) + b) == Normalize([c] + t) + Normalize(b)
  {
    assert t != "" ==> (t + b)[0] == t[0];
    Associate([c], t, b);
    NormalizeCons(c, t + b);
    NormalizeCons(c, t);
    Associate([c], Normalize(t), Normalize(b));
  }

  lemma {:induction false} NormalizeShrinks(s: string)
    ensures |Normalize(s)| <= |s|
  {
    if s == "" {
    } else if |s| >= 2 && s[0] == '\r' && s[1] == '\n' {
      NormalizeShrinks(s[2..]);
    } else {
      NormalizeShrinks(s[1..]);
    }
  }

  const CRLF := "\r\n"

  lemma SplitCrLf()
    ensures Split(CRLF) == [CRLF]
  {
    assert CRLF[1..] == "\n" && "\n"[1..] == "" && Split("") == [""];
    assert ['\n'] + "" == "\n" && ['\r'] + "\n" == CRLF;
  }

  // The carriage return and newline go to the last part, which they leave the last.
  predicate EndPushed(y: string) {
    |Split(y + CRLF)| == |Split(y)| && Last(Split(y + CRLF)) == Last(Split(y)) + CRLF
  }

  lemma {:induction false} LastPush(y: string)
    ensures EndPushed(y)
  {
    if y == "" {
      SplitCrLf();
      assert y + CRLF == CRLF && "" + CRLF == CRLF;
    } else if StartsBlank(y) {
      LastPush(y[2..]);
      LastPushBlank(y[2..]);
      assert ['\n'] + (['\n'] + y[2..]) == y;
    } else {
      LastPush(y[1..]);
      assert [y[0]] + y[1..] == y;
      LastPushCons(y[0], y[1..]);
    }
  }

  lemma LastPushBlank(t: string)
    requires EndPushed(t)
    ensures EndPushed(['\n'] + (['\n'] + t))
  {
    assert (['\n'] + (['\n'] + t)) + CRLF == ['\n'] + (['\n'] + (t + CRLF));
    SplitBlank(t + CRLF);
    SplitBlank(t);
  }

  lemma LastPushCons(c: char, t: string)
    requires EndPushed(t) && !StartsBlank([c] + t)
    ensures EndPushed([c] + t)
  {
    assert t != "" ==> (t + CRLF)[0] == t[0];
    var s := t + CRLF;
    assert !StartsBlank([c] + s);
    SplitCons(c, s);
    SplitCons(c, t);
    BeforePush(c, Split(t), Split(s));
    Associate([c], t, CRLF);
  }

  lemma BeforePush(c: char, p: seq<string>, q: seq<string>)
    requires |p| == |q| && p != [] && Last(q) == Last(p) + CRLF
    ensures Last(Before(c, q)) == Last(Before(c, p)) + CRLF
  {
    if |p| == 1 {
      Associate([c], p[0], CRLF);
    }
  }

  // The last part of such a text still has its carriage return.
  lemma BrokenLast(before: string) returns (u: string)
    ensures
      var n := Normalize(before + "\r\r\n");
      Last(Split(n)) == u + CRLF && n != "" && n[|n| - 1] == '\n'
  {
    NormalizeConcat(before, "\r\r\n");
    assert "\r\r\n"[1..] == CRLF && CRLF[2..] == "" && Normalize(CRLF) == "\n";
    assert Normalize("\r\r\n") == CRLF;
    LastPush(Normalize(before));
    u := Last(Split(Normalize(before)));
  }

  // The reader's second normalisation makes a text that ends so shorter.
  lemma SecondShrinks(u: string, after: string)
    ensures |Normalize(u + CRLF + after)| < |u + CRLF| + |Normalize(after)|
  {
    NormalizeConcat(u + CRLF, after);
    NormalizeConcat(u, CRLF);
    NormalizeShrinks(u);
    assert CRLF[2..] == "" && Normalize(CRLF) == "\n";
  }

  lemma EventsSize(buffer: string, chunk: string)
    ensures Size(Events(buffer, [chunk])) <= |Normalize(buffer + chunk)|
  {
    var w := Split(Normalize(buffer + chunk));
    assert [chunk][1..] == [];
    assert Events(buffer, [chunk]) == Init(w) + Split(Normalize(Last(w)));
    SizePush(Init(w), Split(Normalize(Last(w))));
    SizeOfSplit(Normalize(buffer + chunk));
    SizeOfSplit(Normalize(Last(w)));
    NormalizeShrinks(Last(w));
  }

  // A cut behind two carriage returns and a newline makes the reader lose one that it should keep.
  lemma CutLoses(before: string, after: string)
    ensures Events("", [before + "\r\r\n", after]) != Split(Normalize(before + "\r\r\n" + after))
  {
    var x := before + "\r\r\n";
    var s := Split(Normalize(x));
    var u := BrokenLast(before);
    assert "" + x == x && [x, after][1..] == [after];
    assert Events("", [x, after]) == Init(s) + Events(Last(s), [after]);
    SizePush(Init(s), Events(Last(s), [after]));
    EventsSize(Last(s), after);
    SecondShrinks(u, after);
    SizeOfSplit(Normalize(x));
    SizeOfSplit(Normalize(x + after));
    NormalizeConcat(x, after);
  }

  // The events do not depend on how the text is cut.
  ghost predicate SameForAll(text: string) {
    forall chunks {:trigger Concat(chunks)} :: Concat(chunks) == text ==> Events("", chunks) == Split(Normalize(text))
  }

  // Main result, exactly: that is so if and only if the text is clean.
  lemma SameForAllIff(text: string)
    ensures SameForAll(text) <==> Clean(text)
  {
    if Clean(text) {
      forall chunks | Concat(chunks) == text ensures Events("", chunks) == Split(Normalize(text)) {
        assert "" + text == text;
        AnyChunking("", chunks);
      }
    } else {
      var i :| 0 <= i < |text| - 2 && text[i] == '\r' && text[i + 1] == '\r' && text[i + 2] == '\n';
      var chunks := [text[..i] + "\r\r\n", text[i + 3..]];
      assert text == text[..i] + "\r\r\n" + text[i + 3..];
      assert chunks[1..] == [text[i + 3..]] && chunks[1..][1..] == [];
      assert Concat(chunks[1..]) == text[i + 3..] + Concat([]);
      assert Concat(chunks) == text;
      CutLoses(text[..i], text[i + 3..]);
    }
  }

  // -------- from events to content --------

  // What JSON.parse and the tests behind it make of the data of an event
  datatype Parsed = Invalid | Failure(message: string) | Content(delta: string)

  // What the reader has gathered: its content, what onDelta was called with, and what it threw.
  datatype Reading = Reading(content: string, deltas: seq<string>, thrown: Option<Parsed>)

  const START := Reading("", [], None)

  // String.prototype.trim's white space and line ends
  predicate IsBlank(c: char) {
    || c == ' ' || '\t' <= c <= '\r' || c == '\U{00A0}' || c == '\U{1680}' || '\U{2000}' <= c <= '\U{200A}'
    || c == '\U{2028}' || c == '\U{2029}' || c == '\U{202F}' || c == '\U{205F}' || c == '\U{3000}' || c == '\U{FEFF}'
  }

  function TrimStart(s: string): string { if s != "" && IsBlank(s[0]) then TrimStart(s[1..]) else s }

  function TrimEnd(s: string): string { if s != "" && IsBlank(s[|s| - 1]) then TrimEnd(s[..|s| - 1]) else s }

  function Trim(s: string): string { TrimEnd(TrimStart(s)) }

  function Lines(s: string): (lines: seq<string>)
    ensures lines != []
  {
    if s == "" then [""]
    else if s[0] == '\n' then [""] + Lines(s[1..])
    else Before(s[0], Lines(s[1..]))
  }

  const DATA := "data:"

  // The data lines, without their name and the space around them
  function DataLines(lines: seq<string>): seq<string> {
    if lines == [] then []
    else (if DATA <= lines[0] then [Trim(lines[0][5..])] else []) + DataLines(lines[1..])
  }

  function JoinLines(lines: seq<string>): string {
    if lines == [] then "" else if |lines| == 1 then lines[0] else lines[0] + "\n" + JoinLines(lines[1..])
  }

  // parseSseData
  function ParseData(event: string): string { Trim(JoinLines(DataLines(Lines(event)))) }

  const DONE := "[DONE]"

  // One event; after an exception there is nothing more
  function Dispatch(r: Reading, event: string, parse: string -> Parsed): Reading {
    var data := ParseData(event);
    if r.thrown.Some? || data == "" || data == DONE then r
    else
      match parse(data)
      case Content(delta) => if delta == "" then r else r.(content := r.content + delta, deltas := r.deltas + [delta])
      case bad => r.(thrown := Some(bad))
  }

  function DispatchAll(r: Reading, events: seq<string>, parse: string -> Parsed): Reading
    decreases events
  {
    if events == [] then r else DispatchAll(Dispatch(r, events[0], parse), events[1..], parse)
  }

  lemma {:induction false} DispatchConcat(r: Reading, a: seq<string>, b: seq<string>, parse: string -> Parsed)
    ensures DispatchAll(r, a + b, parse) == DispatchAll(DispatchAll(r, a, parse), b, parse)
    decreases a
  {
    if a == [] {
      assert a + b == b;
    } else {
      assert (a + b)[1..] == a[1..] + b;
      DispatchConcat(Dispatch(r, a[0], parse), a[1..], b, parse);
    }
  }

  lemma {:induction false} DispatchThrown(r: Reading, events: seq<string>, parse: string -> Parsed)
    requires r.thrown.Some?
    ensures DispatchAll(r, events, parse) == r
    decreases events
  {
    if events != [] {
      DispatchThrown(r, events[1..], parse);
    }
  }

  // processBuffer, from what has been read so far
  method ProcessBuffer(buffer: string, before: Reading, flush: bool, parse: string -> Parsed)
    returns (rest: string, r: Reading)
    requires before.thrown.None?
    ensures
      var parts := Split(Normalize(buffer));
      && r == DispatchAll(before, if flush then parts else Init(parts), parse)
      && rest == if flush then "" else Last(parts)
  {
    var events := Split(Normalize(buffer));
    rest := "";
    if !flush {
      rest := Last(events);
      events := Init(events);
    }
    r := ProcessEvents(events, before, parse);
  }

  // Its loop, which an exception leaves
  method ProcessEvents(events: seq<string>, before: Reading, parse: string -> Parsed) returns (r: Reading)
    requires before.thrown.None?
    ensures r == DispatchAll(before, events, parse)
  {
    r := before;
    var i := 0;
    while i < |events|
      invariant 0 <= i <= |events| && r.thrown.None?
      invariant DispatchAll(r, events[i..], parse) == DispatchAll(before, events, parse)
    {
      assert events[i..][0] == events[i] && events[i..][1..] == events[i + 1..];
      r := Dispatch(r, events[i], parse);
      i := i + 1;
      if r.thrown.Some? {
        DispatchThrown(r, events[i..], parse);
        return;
      }
    }
  }

  // The loop of streamChatCompletion, over the decoded chunks of the response
  method StreamChatCompletion(chunks: seq<string>, parse: string -> Parsed) returns (r: Reading)
    ensures r == DispatchAll(START, Events("", chunks), parse)
    ensures Clean(Concat(chunks)) ==> r == DispatchAll(START, Split(Normalize(Concat(chunks))), parse)
  {
    var buffer := "";
    r := START;
    var i := 0;
    while i < |chunks|
      invariant 0 <= i <= |chunks| && r.thrown.None?
      invariant DispatchAll(r, Events(buffer, chunks[i..]), parse) == DispatchAll(START, Events("", chunks), parse)
    {
      ghost var parts, before := Split(Normalize(buffer + chunks[i])), r;
      assert chunks[i..][1..] == chunks[i + 1..];
      DispatchConcat(before, Init(parts), Events(Last(parts), chunks[i + 1..]), parse);
      buffer, r := ProcessBuffer(buffer + chunks[i], r, false, parse);
      if r.thrown.Some? {
        DispatchThrown(r, Events(Last(parts), chunks[i + 1..]), parse);
        break;
      }
      i := i + 1;
    }
    if r.thrown.None? {
      buffer, r := ProcessBuffer(buffer, r, true, parse);
    }
    if Clean(Concat(chunks)) {
      assert "" + Concat(chunks) == Concat(chunks);
      AnyChunking("", chunks);
    }
  }

  // -------- what a caller sees of a cut --------

  // A text that no blank line breaks up, wherever it goes on
  predicate Unbroken(s: string) { forall i :: 0 <= i < |s| && s[i] == '\n' ==> i + 1 < |s| && s[i + 1] != '\n' }

  lemma {:induction false} SplitLine(line: string, rest: string)
    requires Unbroken(line)
    ensures Split(line + (BLANK + rest)) == [line] + Split(rest)
  {
    if line == "" {
      assert line + (BLANK + rest) == ['\n'] + (['\n'] + rest);
      SplitBlank(rest);
    } else {
      var c, t := line[0], line[1..];
      assert forall i :: 0 <= i < |t| ==> t[i] == line[i + 1];
      SplitLine(t, rest);
      assert [c] + t == line && line + (BLANK + rest) == [c] + (t + (BLANK + rest));
      assert c == '\n' ==> t != "" && (t + (BLANK + rest))[0] == t[0];
      SplitCons(c, t + (BLANK + rest));
      assert Before(c, [t] + Split(rest)) == [line] + Split(rest);
    }
  }

  lemma OneLineIsUnbroken(line: string)
    requires '\n' !in line
    ensures Unbroken(line)
  {
    assert forall i :: 0 <= i < |line| ==> line[i] in line;
  }

  lemma {:induction false} NormalizeNothing(s: string)
    requires '\r' !in s
    ensures Normalize(s) == s && Clean(s)
  {
    if s != "" {
      assert s[0] in s && forall d :: d in s[1..] ==> d in s;
      NormalizeNothing(s[1..]);
    }
  }

  lemma {:induction false} LinesOf(line: string, rest: string)
    requires '\n' !in line
    ensures Lines(line) == [line] && Lines(line + ("\n" + rest)) == [line] + Lines(rest)
  {
    if line == "" {
      assert ("\n" + rest)[1..] == rest && "" + ("\n" + rest) == "\n" + rest;
    } else {
      assert line[0] in line && forall d :: d in line[1..] ==> d in line;
      LinesOf(line[1..], rest);
      assert [line[0]] + line[1..] == line;
      assert (line + ("\n" + rest))[1..] == line[1..] + ("\n" + rest);
    }
  }

  // Data as they are sent: one line, with neither end blank
  predicate OneLine(s: string) {
    s != "" && !IsBlank(s[0]) && !IsBlank(s[|s| - 1]) && '\n' !in s && '\r' !in s
  }

  // A data line gives the data behind its name.
  lemma DataOf(data: string, more: seq<string>)
    requires OneLine(data)
    ensures DataLines(["data: " + data] + more) == [data] + DataLines(more)
  {
    var line: string := "data: " + data;
    assert line[5..] == " " + data && (" " + data)[1..] == data;
    assert TrimStart(" " + data) == data;
    assert ([line] + more)[1..] == more;
  }

  lemma ParseOfEvent(data: string)
    requires OneLine(data)
    ensures ParseData("data: " + data) == data
  {
    LinesOf("data: " + data, "");
    DataOf(data, []);
    assert ["data: " + data] + [] == ["data: " + data];
  }

  // The space behind the colon may be missing.
  lemma ParseOfTight(data: string)
    requires OneLine(data)
    ensures ParseData("data:" + data) == data
  {
    var line := "data:" + data;
    var lines: seq<string> := [line];
    LinesOf(line, "");
    assert line[5..] == data && lines[1..] == [];
    assert DataLines(lines) == [Trim(data)];
  }

  lemma ParseOfNothing()
    ensures ParseData("") == ""
  {
    var nothing: seq<string> := [""];
    assert nothing[1..] == [];
    assert DataLines(nothing) == [];
  }

  // The data of some events, without those that the reader skips
  function Datas(events: seq<string>): seq<string> {
    if events == [] then []
    else
      var data := ParseData(events[0]);
      (if data == "" || data == DONE then [] else [data]) + Datas(events[1..])
  }

  function DispatchData(r: Reading, datas: seq<string>, parse: string -> Parsed): Reading
    decreases datas
  {
    if datas == [] || r.thrown.Some? then r
    else
      match parse(datas[0])
      case Content(delta) =>
        DispatchData(if delta == "" then r else r.(content := r.content + delta, deltas := r.deltas + [delta]),
                     datas[1..], parse)
      case bad => r.(thrown := Some(bad))
  }

  lemma {:induction false} DispatchIsOfData(r: Reading, events: seq<string>, parse: string -> Parsed)
    ensures DispatchAll(r, events, parse) == DispatchData(r, Datas(events), parse)
    decreases events
  {
    if events != [] && r.thrown.Some? {
      DispatchThrown(r, events, parse);
    } else if events != [] {
      DispatchIsOfData(Dispatch(r, events[0], parse), events[1..], parse);
      var data := ParseData(events[0]);
      if data != "" && data != DONE {
        assert Datas(events)[1..] == Datas(events[1..]);
      } else {
        assert Datas(events) == Datas(events[1..]);
      }
    }
  }

  lemma {:induction false} DataAreRead(r: Reading, datas: seq<string>, parse: string -> Parsed)
    requires r.thrown.None? && (forall d :: d in datas ==> d != "" && parse(d) == Content(d))
    ensures DispatchData(r, datas, parse).deltas == r.deltas + datas
    decreases datas
  {
    if datas != [] {
      assert datas[0] in datas && forall d :: d in datas[1..] ==> d in datas;
      DataAreRead(r.(content := r.content + datas[0], deltas := r.deltas + [datas[0]]), datas[1..], parse);
      assert r.deltas + [datas[0]] + datas[1..] == r.deltas + datas;
    }
  }

  lemma {:induction false} DatasNotEmpty(events: seq<string>)
    ensures forall d :: d in Datas(events) ==> d != ""
  {
    if events != [] {
      DatasNotEmpty(events[1..]);
    }
  }

  // Two lists of events read alike, whatever their data mean.
  ghost predicate ReadAlike(a: seq<string>, b: seq<string>) {
    forall parse: string -> Parsed :: DispatchAll(START, a, parse) == DispatchAll(START, b, parse)
  }

  lemma SameDatas(a: seq<string>, b: seq<string>)
    requires Datas(a) == Datas(b)
    ensures ReadAlike(a, b)
  {
    forall parse: string -> Parsed ensures DispatchAll(START, a, parse) == DispatchAll(START, b, parse) {
      DispatchIsOfData(START, a, parse);
      DispatchIsOfData(START, b, parse);
    }
  }

  // With a parser that takes each data for a delta, the deltas are the data.
  function AsDelta(data: string): Parsed { Content(data) }

  lemma DeltasAreDatas(events: seq<string>)
    ensures DispatchAll(START, events, AsDelta).deltas == Datas(events)
  {
    DispatchIsOfData(START, events, AsDelta);
    DatasNotEmpty(events);
    DataAreRead(START, Datas(events), AsDelta);
    assert START.deltas + Datas(events) == Datas(events);
  }

  // Exactly when two lists of events read alike: when they have the same data
  lemma ReadAlikeIff(a: seq<string>, b: seq<string>)
    ensures ReadAlike(a, b) <==> Datas(a) == Datas(b)
  {
    if Datas(a) == Datas(b) {
      SameDatas(a, b);
    }
    DeltasAreDatas(a);
    DeltasAreDatas(b);
  }

  lemma {:induction false} SplitUnbroken(s: string)
    requires forall i {:trigger s[i]} :: 0 <= i < |s| - 1 && s[i] == '\n' ==> s[i + 1] != '\n'
    ensures Split(s) == [s]
  {
    if s != "" {
      SplitUnbroken(s[1..]);
      assert [s[0]] + s[1..] == s;
    }
  }

  // Two lines, with a carriage return too many between them, and the place where the text is cut
  predicate NoLineEnd(s: string) { '\n' !in s && '\r' !in s }

  function First(a: string): string { a + "\n" + "\r\r\n" }

  function Second(b: string): string { b + BLANK }

  lemma NormalizeFirst(a: string)
    requires NoLineEnd(a)
    ensures Normalize(First(a)) == a + "\n" + CRLF
  {
    NormalizeConcat(a + "\n", "\r\r\n");
    NormalizeNothing(a + "\n");
    assert "\r\r\n"[1..] == CRLF && CRLF[2..] == "" && Normalize(CRLF) == "\n";
  }

  lemma NormalizeSecond(b: string)
    requires NoLineEnd(b)
    ensures Normalize(Second(b)) == b + BLANK
  {
    NormalizeNothing(b + BLANK);
  }

  lemma WholeNormalizes(a: string, b: string)
    requires NoLineEnd(a) && NoLineEnd(b) && b != ""
    ensures Normalize(First(a) + Second(b)) == a + "\n" + CRLF + (b + BLANK)
  {
    NormalizeConcat(First(a), Second(b));
    NormalizeFirst(a);
    NormalizeSecond(b);
  }

  lemma WholeSplits(a: string, b: string)
    requires NoLineEnd(a) && NoLineEnd(b) && b != ""
    ensures Split(Normalize(First(a) + Second(b))) == [a + ("\n" + ("\r" + ("\n" + b)))] + [""]
  {
    WholeNormalizes(a, b);
    var line := a + ("\n" + ("\r" + ("\n" + b)));
    assert a + "\n" + CRLF + (b + BLANK) == line + (BLANK + "");
    TwoLinesUnbroken(a, b);
    SplitLine(line, "");
  }

  lemma TwoLinesUnbroken(a: string, b: string)
    requires NoLineEnd(a) && NoLineEnd(b) && b != ""
    ensures Unbroken(a + ("\n" + ("\r" + ("\n" + b))))
  {
    var line := a + ("\n" + ("\r" + ("\n" + b)));
    assert forall i :: 0 <= i < |a| ==> line[i] == a[i] && a[i] in a;
    assert forall i {:trigger b[i]} :: 0 <= i < |b| ==> line[|a| + 3 + i] == b[i] && b[i] in b;
    assert forall i :: |a| + 3 <= i < |line| ==> line[i] == b[i - |a| - 3];
    assert line[|a| + 1] == '\r' && line[|a| + 3] == b[0];
  }

  lemma CutSplits(a: string, b: string)
    requires NoLineEnd(a) && NoLineEnd(b)
    ensures Events("", [First(a), Second(b)]) == [a] + ([b] + [""])
  {
    var x, y, n := First(a), Second(b), a + "\n" + CRLF;
    NormalizeFirst(a);
    SplitUnbroken(n);
    assert "" + x == x;
    SecondSplits(a, b);
    var chunks: seq<string> := [x, y];
    assert chunks[1..] == [y] && chunks[1..][1..] == [];
    assert Events("", chunks) == Init([n]) + Events(n, [y]);
    var parts: seq<string> := [a] + ([b] + [""]);
    assert Events(n, [y]) == Init(parts) + Split(Normalize("")) && Split(Normalize("")) == [""];
    assert Init([n]) == [] && Init(parts) + [""] == parts;
  }

  lemma SecondNormalizes(a: string, b: string)
    requires NoLineEnd(a) && NoLineEnd(b)
    ensures Normalize(a + "\n" + CRLF + Second(b)) == a + "\n" + "\n" + (b + BLANK)
  {
    NormalizeConcat(a + "\n" + CRLF, Second(b));
    NormalizeConcat(a + "\n", CRLF);
    NormalizeNothing(a + "\n");
    NormalizeSecond(b);
    assert CRLF[2..] == "" && Normalize(CRLF) == "\n";
  }

  lemma SecondSplits(a: string, b: string)
    requires NoLineEnd(a) && NoLineEnd(b)
    ensures Split(Normalize(a + "\n" + CRLF + Second(b))) == [a] + ([b] + [""])
  {
    SecondNormalizes(a, b);
    assert a + "\n" + "\n" + (b + BLANK) == a + (BLANK + (b + (BLANK + "")));
    SplitLine(a, b + (BLANK + ""));
    SplitLine(b, "");
  }

  lemma {:induction false} DatasConcat(a: seq<string>, b: seq<string>)
    ensures Datas(a + b) == Datas(a) + Datas(b)
  {
    if a == [] {
      assert a + b == b;
    } else {
      assert (a + b)[1..] == a[1..] + b;
      DatasConcat(a[1..], b);
    }
  }

  lemma DatasOne(event: string, data: string)
    requires ParseData(event) == data
    ensures Datas([event]) == if data == "" || data == DONE then [] else [data]
  {
    var events: seq<string> := [event];
    assert events[1..] == [];
  }

  lemma TrimKeeps(s: string)
    requires s != "" && !IsBlank(s[0]) && !IsBlank(s[|s| - 1])
    ensures Trim(s) == s
  {
  }

  lemma ThreeLines(a: string, b: string)
    requires NoLineEnd(a) && NoLineEnd(b)
    ensures Lines(a + ("\n" + ("\r" + ("\n" + b)))) == [a] + (["\r"] + [b])
  {
    LinesOf(a, "\r" + ("\n" + b));
    LinesOf("\r", b);
    LinesOf(b, "");
  }

  lemma ThreeLinesRead(x: string, y: string)
    requires OneLine(x) && OneLine(y)
    ensures DataLines(["data: " + x] + (["\r"] + ["data: " + y])) == [x] + [y]
  {
    var last: seq<string> := ["data: " + y];
    var middle: seq<string> := ["\r"];
    DataOf(x, middle + last);
    assert (middle + last)[1..] == last && DataLines(middle + last) == DataLines(last);
    DataOf(y, []);
    assert last + [] == last;
  }

  lemma TwoLinesRead(x: string, y: string)
    requires OneLine(x) && OneLine(y)
    ensures ParseData("data: " + x + ("\n" + ("\r" + ("\n" + ("data: " + y))))) == x + "\n" + y
  {
    ThreeLines("data: " + x, "data: " + y);
    ThreeLinesRead(x, y);
    JoinTwo(x, y);
    var s := x + "\n" + y;
    assert s[0] == x[0] && s[|s| - 1] == y[|y| - 1];
    TrimKeeps(s);
  }

  lemma JoinTwo(x: string, y: string)
    ensures JoinLines([x] + [y]) == x + "\n" + y
  {
    var data: seq<string> := [x] + [y];
    assert data[1..] == [y];
  }

  // The inputs that show what a caller may see: whatever two data are sent in this way, the whole
  // text is read as one delta of two lines, and its cut as two deltas.
  lemma CutReadsOtherwise(x: string, y: string)
    requires OneLine(x) && OneLine(y) && x != DONE && y != DONE
    ensures
      var a, b := First("data: " + x), Second("data: " + y);
      && Datas(Split(Normalize(a + b))) == [x + "\n" + y] && Datas(Events("", [a, b])) == [x, y]
      && !ReadAlike(Events("", [a, b]), Split(Normalize(a + b)))
  {
    var a, b := "data: " + x, "data: " + y;
    var line := a + ("\n" + ("\r" + ("\n" + b)));
    WholeSplits(a, b);
    CutSplits(a, b);
    TwoLinesRead(x, y);
    ParseOfEvent(x);
    ParseOfEvent(y);
    assert (x + "\n" + y)[|x|] == '\n' && '\n' !in DONE;
    DatasOfOne(line, x + "\n" + y);
    DatasOfTwo(a, b, x, y);
    ReadAlikeIff([a] + ([b] + [""]), [line] + [""]);
    assert |[x, y]| == 2;
  }

  lemma DatasOfOne(event: string, data: string)
    requires ParseData(event) == data && data != "" && data != DONE
    ensures Datas([event] + [""]) == [data]
  {
    ParseOfNothing();
    DatasConcat([event], [""]);
    DatasOne(event, data);
    DatasOne("", "");
  }

  lemma DatasOfTwo(a: string, b: string, x: string, y: string)
    requires ParseData(a) == x && ParseData(b) == y && x != "" && y != "" && x != DONE && y != DONE
    ensures Datas([a] + ([b] + [""])) == [x, y]
  {
    DatasOfOne(b, y);
    DatasConcat([a], [b] + [""]);
    DatasOne(a, x);
  }
}
