/** The messages that bodies are sent in: what is cut out of them, and a whole stream from the worker. */
module Envelopes {
  import opened Text
  import opened JsonScan
  import opened DecodeStreams
  import opened StreamMessages
  import NodeJobQueues

  // -------- the message --------

  // What is sent with a body
  datatype Wrap = Wrap(created: nat, objectName: string, requestId: string, workId: string)

  // The keys before the data, the data, and the rest
  function Envelope(created: nat, body: string, rest: string): string {
    "{\"created\":" + (Print(created) + (",\"data\":" + (body + rest)))
  }

  const ERROR := ",\"error\":{\"code\":0,\"message\":\"\"}"

  // One key of them, whose name and quotes are given as printed
  function Field(name: string, value: string, rest: string): string { name + (Escape(value) + rest) }

  // The keys behind the data, without the brace that ends the message
  function Fields(w: Wrap): string {
    ERROR + Field(",\"object\":\"", w.objectName, Ids(w))
  }

  function Ids(w: Wrap): string {
    Field("\",\"request_id\":\"", w.requestId, Field("\",\"work_id\":\"", w.workId, "\""))
  }

  function Trailer(w: Wrap): string { Fields(w) + "}\n" }

  function Message(w: Wrap, body: string): string { Envelope(w.created, body, Trailer(w)) }

  // A message whose names need no escapes, as it looks
  lemma LooksLike(w: Wrap, body: string)
    requires AllPlain(w.objectName) && AllPlain(w.requestId) && AllPlain(w.workId)
    ensures Message(w, body) ==
      "{\"created\":" + (Print(w.created) + (",\"data\":" + (body
      + (",\"error\":{\"code\":0,\"message\":\"\"}" + (",\"object\":\"" + (w.objectName
      + ("\",\"request_id\":\"" + (w.requestId + ("\",\"work_id\":\"" + (w.workId + "\"")))))) + "}\n"))))
  {
    EscapeLength(w.objectName);
    EscapeLength(w.requestId);
    EscapeLength(w.workId);
  }

  // What a subscriber hands to decode_stream; when it is empty, the caller reports an error at once,
  // as it does when decode_stream throws.
  function DataOf(message: string): string { Scan(message, "data") }

  // -------- how deep the braces are --------

  lemma {:induction false} DepthConcat(a: string, b: string)
    ensures Depth(a + b) == Depth(a) + Depth(b)
  {
    if b == "" {
      assert a + b == a;
    } else {
      assert (a + b)[..|a + b| - 1] == a + b[..|b| - 1];
      DepthConcat(a, b[..|b| - 1]);
    }
  }

  predicate NoBrace(s: string) { forall i :: 0 <= i < |s| ==> Weight(s[i]) == 0 }

  lemma {:induction false} DepthFlat(s: string)
    requires NoBrace(s)
    ensures Depth(s) == 0
  {
    if s != "" {
      DepthFlat(s[..|s| - 1]);
    }
  }

  // The braces of a text are nested in themselves.
  predicate Nested(s: string) { Depth(s) == 0 && forall k :: 0 <= k <= |s| ==> Depth(s[..k]) >= 0 }

  // Some prefix is at depth d.
  predicate Reaches(s: string, d: int) { exists k :: 0 <= k <= |s| && Depth(s[..k]) == d }

  // Some prefix closes one brace too many.
  predicate Low(s: string) { Reaches(s, -1) }

  lemma {:induction false} NegativeIsLow(s: string, k: nat)
    requires k <= |s| && Depth(s[..k]) < 0
    ensures Low(s)
  {
    if Depth(s[..k]) != -1 {
      assert k > 0 && s[..k][..k - 1] == s[..k - 1];
      NegativeIsLow(s, k - 1);
    }
  }

  lemma NestedIff(s: string)
    ensures Nested(s) <==> Depth(s) == 0 && !Low(s)
  {
    forall k | 0 <= k <= |s| && Depth(s[..k]) < 0 ensures Low(s) {
      NegativeIsLow(s, k);
    }
  }

  // Text without a brace behind another does not make it lower.
  lemma LowFlat(a: string, b: string)
    requires NoBrace(b)
    ensures Low(a + b) <==> Low(a)
  {
    forall k | 0 <= k <= |a + b| ensures Depth((a + b)[..k]) == Depth(a[..if k <= |a| then k else |a|]) {
      if k > |a| {
        assert (a + b)[..k] == a[..|a|] + b[..k - |a|];
        DepthConcat(a[..|a|], b[..k - |a|]);
        DepthFlat(b[..k - |a|]);
      } else {
        assert (a + b)[..k] == a[..k];
      }
    }
    if Low(a) {
      var k :| 0 <= k <= |a| && Depth(a[..k]) == -1;
      assert Depth((a + b)[..k]) == -1;
    }
  }

  lemma LowPush(a: string, c: char)
    ensures Low(a + [c]) <==> Low(a) || Depth(a + [c]) == -1
  {
    var s := a + [c];
    assert s[..|s|] == s;
    assert forall k :: 0 <= k <= |a| ==> s[..k] == a[..k];
  }

  lemma {:induction false} EscapeConcat(a: string, b: string)
    ensures Escape(a + b) == Escape(a) + Escape(b)
  {
    if a == "" {
      assert a + b == b;
    } else {
      assert (a + b)[1..] == a[1..] + b;
      EscapeConcat(a[1..], b);
    }
  }

  lemma EscapeCharDepth(c: char)
    ensures EscapeChar(c) == [c] || (NoBrace(EscapeChar(c)) && Weight(c) == 0)
  {
  }

  lemma EscapeDepthPush(s: string, e: string, c: char)
    requires Depth(e) == Depth(s) && (Low(e) <==> Low(s))
    ensures var f := EscapeChar(c); Depth(e + f) == Depth(s + [c]) && (Low(e + f) <==> Low(s + [c]))
  {
    var f := EscapeChar(c);
    EscapeCharDepth(c);
    DepthConcat(e, f);
    DepthConcat(s, [c]);
    if f == [c] {
      LowPush(s, c);
      LowPush(e, c);
    } else {
      DepthFlat(f);
      DepthFlat([c]);
      LowFlat(e, f);
      LowFlat(s, [c]);
    }
  }

  // Printing a text adds no braces and takes none away.
  lemma {:induction false} EscapeDepth(s: string)
    ensures Depth(Escape(s)) == Depth(s) && (Low(Escape(s)) <==> Low(s))
  {
    if s != "" {
      var init, c := s[..|s| - 1], s[|s| - 1];
      EscapeDepth(init);
      EscapeConcat(init, [c]);
      EscapeOne(c);
      assert s == init + [c];
      EscapeDepthPush(init, Escape(init), c);
    }
  }

  lemma EscapeOne(c: char)
    ensures Escape([c]) == EscapeChar(c)
  {
    assert [c][1..] == "" && EscapeChar(c) + "" == EscapeChar(c);
  }

  lemma PrefixDepth(a: string, b: string, k: nat)
    requires |a| <= k <= |a + b|
    ensures Depth((a + b)[..k]) == Depth(a) + Depth(b[..k - |a|])
  {
    assert (a + b)[..k] == a + b[..k - |a|];
    DepthConcat(a, b[..k - |a|]);
  }

  // A text that opens one brace
  lemma OpenDepth(h: string)
    requires h != "" && h[0] == '{' && NoBrace(h[1..])
    ensures Depth(h) == 1
  {
    assert h == "{" + h[1..];
    DepthConcat("{", h[1..]);
    DepthFlat(h[1..]);
    assert "{"[..0] == "" && Depth("{") == 1;
  }

  // How deep a body is at a place inside it
  function DepthAt(e: string, k: nat): int {
    if k <= 10 then 1 else if k <= 10 + |e| then 1 + Depth(e[..k - 10]) else 1 + Depth(e)
  }

  lemma BodyDepth(h: string, e: string, t: string, k: nat)
    requires |h| == 10 && h[0] == '{' && NoBrace(h[1..]) && NoBrace(t) && 0 < k <= 10 + |e| + |t|
    ensures Depth((h + (e + (t + "}")))[..k]) == DepthAt(e, k)
  {
    var x := e + (t + "}");
    if k <= 10 {
      assert (h + x)[..k] == h[..k] && h[..k][1..] == h[1..][..k - 1];
      OpenDepth(h[..k]);
    } else {
      OpenDepth(h);
      PrefixDepth(h, x, k);
      if k <= 10 + |e| {
        assert x[..k - 10] == e[..k - 10];
      } else {
        PrefixDepth(e, t + "}", k - 10);
        assert (t + "}")[..k - 10 - |e|] == t[..k - 10 - |e|];
        DepthFlat(t[..k - 10 - |e|]);
      }
    }
  }

  // How deep a body and what follows it are, up to the end of the body and behind it
  predicate Deep(v: string, e: string, n: nat, rest: string) {
    && 11 + |e| <= n && |v| == n + |rest|
    && (forall k :: 0 < k < n ==> Depth(v[..k]) == DepthAt(e, k))
    && (forall j :: 0 <= j <= |rest| ==> Depth(v[..n + j]) == Depth(e) + Depth(rest[..j]))
  }

  lemma BodyIsDeep(e: string, t: string, rest: string)
    requires NoBrace(t)
    ensures var body := DELTA + (e + (t + "}")); Deep(body + rest, e, |body|, rest)
  {
    var body := DELTA + (e + (t + "}"));
    BodyInside(body, e, t, rest);
    WholeBody(DELTA, e, t);
    BodyBehind(body, e, rest);
  }

  lemma BodyInside(body: string, e: string, t: string, rest: string)
    requires NoBrace(t) && body == DELTA + (e + (t + "}"))
    ensures forall k :: 0 < k < |body| ==> Depth((body + rest)[..k]) == DepthAt(e, k)
  {
    forall k | 0 < k < |body| ensures Depth((body + rest)[..k]) == DepthAt(e, k) {
      BodyDepth(DELTA, e, t, k);
      InsideBody(body, rest, k);
    }
  }

  lemma InsideBody(a: string, b: string, k: nat)
    requires k <= |a|
    ensures (a + b)[..k] == a[..k]
  {
  }

  lemma WholeBody(h: string, e: string, t: string)
    requires h != "" && h[0] == '{' && NoBrace(h[1..]) && NoBrace(t)
    ensures Depth(h + (e + (t + "}"))) == Depth(e)
  {
    OpenDepth(h);
    DepthFlat(t);
    assert "}"[..0] == "" && Depth("}") == -1;
    DepthConcat(h, e + (t + "}"));
    DepthConcat(e, t + "}");
    DepthConcat(t, "}");
  }

  lemma BodyBehind(body: string, e: string, rest: string)
    requires Depth(body) == Depth(e)
    ensures forall j :: 0 <= j <= |rest| ==> Depth((body + rest)[..|body| + j]) == Depth(e) + Depth(rest[..j])
  {
    forall j | 0 <= j <= |rest| ensures Depth((body + rest)[..|body| + j]) == Depth(e) + Depth(rest[..j]) {
      BehindDepth(body, rest, j);
    }
  }

  lemma BehindDepth(a: string, b: string, j: nat)
    requires j <= |b|
    ensures Depth((a + b)[..|a| + j]) == Depth(a) + Depth(b[..j])
  {
    assert (a + b)[..|a| + j] == a + b[..j];
    DepthConcat(a, b[..j]);
  }

  // The first prefix at a depth
  lemma {:induction false} FirstReach(s: string, d: int, k: nat) returns (j: nat)
    requires k <= |s| && Depth(s[..k]) == d
    ensures j <= k && Depth(s[..j]) == d && forall i :: 0 <= i < j ==> Depth(s[..i]) != d
    decreases k
  {
    j := k;
    if i :| 0 <= i < k && Depth(s[..i]) == d {
      j := FirstReach(s, d, i);
    }
  }

  // Where the value ends: inside the delta, if that closes a brace too many; ...
  lemma ClosesInside(v: string, e: string, n: nat, rest: string) returns (k: nat)
    requires Deep(v, e, n, rest) && Low(e)
    ensures k <= |e| && Closes(v, 10 + k)
  {
    k :| 0 <= k <= |e| && Depth(e[..k]) == -1;
    k := FirstReach(e, -1, k);
    assert e[..0] == "" && Depth("") == 0;
  }

  // ... or behind the body, where the braces it has left open are closed; ...
  lemma ClosesBehind(v: string, e: string, n: nat, rest: string) returns (j: nat)
    requires Deep(v, e, n, rest) && !Low(e) && Reaches(rest, -Depth(e))
    ensures j <= |rest| && Closes(v, n + j) && (Depth(e) == 0 ==> j == 0)
  {
    j :| 0 <= j <= |rest| && Depth(rest[..j]) == -Depth(e);
    j := FirstReach(rest, -Depth(e), j);
    assert rest[..0] == "" && Depth("") == 0 && e[..|e|] == e;
    forall k | 0 < k < n + j ensures Depth(v[..k]) != 0 {
      OpenInside(v, e, n, rest, k);
      assert k >= n ==> Depth(v[..n + (k - n)]) == Depth(e) + Depth(rest[..k - n]);
    }
  }

  lemma OpenInside(v: string, e: string, n: nat, rest: string, k: nat)
    requires Deep(v, e, n, rest) && !Low(e) && 0 < k
    ensures k < n ==> Depth(v[..k]) != 0
  {
    assert e[..|e|] == e;
    assert 10 < k <= 10 + |e| ==> Depth(e[..k - 10]) != -1;
    assert Depth(e[..|e|]) != -1;
  }

  // ... or nowhere.
  lemma ClosesNowhere(v: string, e: string, n: nat, rest: string)
    requires Deep(v, e, n, rest) && !Low(e) && !Reaches(rest, -Depth(e))
    ensures forall k :: !Closes(v, k)
  {
    forall k | 0 < k <= |v| ensures Depth(v[..k]) != 0 {
      if k < n {
        OpenInside(v, e, n, rest, k);
      } else {
        OpenBehind(v, e, n, rest, k - n);
      }
    }
  }

  lemma OpenBehind(v: string, e: string, n: nat, rest: string, j: nat)
    requires Deep(v, e, n, rest) && j <= |rest| && !Reaches(rest, -Depth(e))
    ensures Depth(v[..n + j]) != 0
  {
    assert Depth(v[..n + j]) == Depth(e) + Depth(rest[..j]);
  }

  // What is cut out of v
  ghost predicate CutOf(v: string, data: string) {
    && (forall n :: Closes(v, n) ==> data == v[..n])
    && ((forall n :: !Closes(v, n)) ==> data == "")
  }

  lemma CutInside(v: string, e: string, n: nat, rest: string, data: string) returns (k: nat)
    requires Deep(v, e, n, rest) && CutOf(v, data) && Low(e)
    ensures k <= |e| && data == v[..10 + k]
  {
    k := ClosesInside(v, e, n, rest);
  }

  lemma CutBehind(v: string, e: string, n: nat, rest: string, data: string) returns (j: nat)
    requires Deep(v, e, n, rest) && CutOf(v, data) && !Low(e) && Reaches(rest, -Depth(e))
    ensures j <= |rest| && data == v[..n + j] && (Depth(e) == 0 ==> j == 0)
  {
    j := ClosesBehind(v, e, n, rest);
  }

  lemma CutNowhere(v: string, e: string, n: nat, rest: string, data: string)
    requires Deep(v, e, n, rest) && CutOf(v, data) && !Low(e) && !Reaches(rest, -Depth(e))
    ensures data == ""
  {
    ClosesNowhere(v, e, n, rest);
  }

  // It is the body exactly when the printed delta is nested.
  lemma CutIsBody(v: string, e: string, n: nat, rest: string, data: string)
    requires Deep(v, e, n, rest) && CutOf(v, data)
    ensures data == v[..n] <==> Depth(e) == 0 && !Low(e)
  {
    assert rest[..0] == "" && Depth("") == 0;
    if Low(e) {
      var k := CutInside(v, e, n, rest, data);
      assert |data| == 10 + k;
    } else if Reaches(rest, -Depth(e)) {
      var j := CutBehind(v, e, n, rest, data);
      assert |data| == n + j;
      assert Depth(v[..n + j]) == Depth(e) + Depth(rest[..j]);
    } else {
      CutNowhere(v, e, n, rest, data);
      assert Depth(rest[..0]) == 0;
    }
  }

  // -------- what is cut out --------

  lemma DataIs(created: nat, v: string)
    requires v != "" && v[0] == '{'
    ensures CutOf(v, DataOf("{\"created\":" + (Print(created) + (",\"data\":" + v))))
  {
    DataBehind(created, v);
    ScanObject(":", v);
  }

  lemma DataBehind(created: nat, x: string)
    ensures Behind("{\"created\":" + (Print(created) + (",\"data\":" + x)), QuotedKey("data")) == Some(":" + x)
  {
    var q := QuotedKey("data");
    assert '"' !in Print(created) by { forall d | d in Print(created) ensures d != '"' { } }
    Skip("{\"created\":", Print(created) + (",\"data\":" + x), q);
    SkipNumber(Print(created), x);
  }

  lemma SkipNumber(number: string, x: string)
    requires '"' !in number
    ensures Behind(number + (",\"data\":" + x), QuotedKey("data")) == Some(":" + x)
  {
    var q := QuotedKey("data");
    Skip(number, ",\"data\":" + x, q);
    assert ",\"data\":" + x == "," + (q + (":" + x));
    Skip(",", q + (":" + x), q);
    BehindFirst(q, ":" + x);
  }

  lemma PrintedIsDeep(c: Chunk, rest: string)
    requires c.index >= 0
    ensures Deep(Printed(c) + rest, Escape(c.delta), |Printed(c)|, rest)
  {
    var finish, index := PrintBool(c.last), Print(c.index);
    var t := "\"," + ("\"finish\":" + (finish + ("," + ("\"index\":" + index))));
    assert Tail(finish, index, "") == t + "}";
    assert NoBrace(finish) && NoBrace(index);
    assert NoBrace(t);
    BodyIsDeep(Escape(c.delta), t, rest);
  }

  // Exactly: the data is the body itself if and only if the braces in the delta are nested, since the
  // scanner counts those inside of strings too.
  lemma EnvelopeData(created: nat, c: Chunk, rest: string)
    requires c.index >= 0
    ensures DataOf(Envelope(created, Printed(c), rest)) == Printed(c) <==> Nested(c.delta)
  {
    var v := Printed(c) + rest;
    PrintedIsDeep(c, rest);
    DataIs(created, v);
    CutIsBody(v, Escape(c.delta), |Printed(c)|, rest, DataOf(Envelope(created, Printed(c), rest)));
    assert v[..|Printed(c)|] == Printed(c);
    EscapeDepth(c.delta);
    NestedIff(c.delta);
  }

  // A delta that survives, cut out of a message with this rest
  predicate Survives(delta: string, rest: string) {
    Faithful(delta) && !Low(delta) && Reaches(rest, -Depth(delta))
  }

  // In what is cut off inside the delta, no key behind it is found.
  lemma CutHasNoKey(e: string, key: string)
    requires QuotesEscaped(e) && PlainKey(key)
    ensures Scan(DELTA + e, key) == ""
  {
    var s, q := DELTA + e, QuotedKey(key);
    forall i ensures !At(s, q, i) {
      if At(s, q, i) {
        assert DELTA + (e + "\"") == s + "\"";
        assert forall k {:trigger q[k]} :: 0 <= k < |q| ==> (s + "\"")[i + k] == s[i + k];
        EarlyKey(e, "\"", key, i);
      }
    }
    FindTextFinds(s, q);
  }

  lemma CutReadsNothing(e: string, k: nat)
    requires QuotesEscaped(e) && k <= |e|
    ensures Read(DELTA + e[..k]) == None
  {
    forall i | 0 <= i < k && e[..k][i] == '"' ensures Escaped(e[..k], i) {
      assert Escaped(e, i);
    }
    CutHasNoKey(e[..k], "index");
    assert Stoi("") == None;
  }

  lemma NothingReadsNothing(data: string)
    requires data == ""
    ensures Read(data) == None
  {
    FindTextFinds("", QuotedKey("index"));
    assert Stoi("") == None;
  }

  // What is read from a message in the end
  lemma DataShape(created: nat, c: Chunk, rest: string)
    requires Proper(c)
    ensures Shape(c, Survives(c.delta, rest), Read(DataOf(Envelope(created, Printed(c), rest))))
  {
    PrintedIsDeep(c, rest);
    DataIs(created, Printed(c) + rest);
    CutShape(c, rest, DataOf(Envelope(created, Printed(c), rest)));
  }

  lemma CutShape(c: Chunk, rest: string, data: string)
    requires Proper(c) && CutOf(Printed(c) + rest, data)
    requires Deep(Printed(c) + rest, Escape(c.delta), |Printed(c)|, rest)
    ensures Shape(c, Survives(c.delta, rest), Read(data))
  {
    EscapeDepth(c.delta);
    if Low(c.delta) {
      var k := CutInside(Printed(c) + rest, Escape(c.delta), |Printed(c)|, rest, data);
      InsideReads(c, rest, k, data);
    } else if Reaches(rest, -Depth(c.delta)) {
      var j := CutBehind(Printed(c) + rest, Escape(c.delta), |Printed(c)|, rest, data);
      BehindReads(c, rest, j, data);
    } else {
      CutNowhere(Printed(c) + rest, Escape(c.delta), |Printed(c)|, rest, data);
      NothingReadsNothing(data);
    }
  }

  lemma InsideReads(c: Chunk, rest: string, k: nat, data: string)
    requires k <= |Escape(c.delta)| && data == (Printed(c) + rest)[..10 + k]
    ensures Read(data) == None
  {
    EscapeQuotes(c.delta);
    InsideIs(Escape(c.delta), Tail(PrintBool(c.last), PrintInt(c.index), ""), rest, k);
    CutReadsNothing(Escape(c.delta), k);
  }

  lemma InsideIs(e: string, t: string, rest: string, k: nat)
    requires k <= |e|
    ensures (DELTA + (e + t) + rest)[..10 + k] == DELTA + e[..k]
  {
  }

  lemma BehindReads(c: Chunk, rest: string, k: nat, data: string)
    requires Proper(c) && k <= |rest| && data == (Printed(c) + rest)[..|Printed(c)| + k]
    ensures Shape(c, Faithful(c.delta), Read(data))
  {
    ThenIs(c, rest[..k]);
    BehindIs(Printed(c), rest, k);
    ReadShape(c, rest[..k]);
  }

  lemma BehindIs(body: string, rest: string, k: nat)
    requires k <= |rest|
    ensures (body + rest)[..|body| + k] == body + rest[..k]
  {
  }

  // Main result, exactly: what decode_stream reads from a message that the worker sends is the chunk
  // that was sent if and only if the delta is faithful, closes no brace that it has not opened, and
  // leaves no more of them open than the rest of the message closes.
  lemma MessageIff(c: Chunk, w: Wrap)
    requires Proper(c)
    ensures Read(DataOf(Message(w, Printed(c)))) == Some(c) <==> Survives(c.delta, Trailer(w))
  {
    DataShape(w.created, c, Trailer(w));
  }

  lemma NestedConcat(a: string, b: string)
    requires Nested(a) && Nested(b)
    ensures Nested(a + b)
  {
    DepthConcat(a, b);
    forall k | 0 <= k <= |a + b| ensures Depth((a + b)[..k]) >= 0 {
      if k <= |a| {
        assert (a + b)[..k] == a[..k];
      } else {
        PrefixDepth(a, b, k);
      }
    }
  }

  lemma FlatIsNested(s: string)
    requires NoBrace(s)
    ensures Nested(s)
  {
    DepthFlat(s);
    forall k | 0 <= k <= |s| ensures Depth(s[..k]) >= 0 {
      DepthFlat(s[..k]);
    }
  }

  // A text behind a brace that it does not close
  lemma BracedIsNested(s: string)
    requires NoBrace(s)
    ensures Nested("{" + (s + "}"))
  {
    var b := "{" + (s + "}");
    OpenDepth("{" + s);
    assert b == ("{" + s) + "}" && "}"[..0] == "" && Depth("}") == -1;
    DepthConcat("{" + s, "}");
    forall k | 0 <= k <= |b| ensures Depth(b[..k]) >= 0 {
      if k == 0 {
        assert b[..k] == "";
      } else if k < |b| {
        assert b[..k] == "{" + s[..k - 1];
        OpenDepth("{" + s[..k - 1]);
      } else {
        assert b[..k] == b;
      }
    }
  }

  lemma EscapeIsNested(s: string)
    requires Nested(s)
    ensures Nested(Escape(s))
  {
    EscapeDepth(s);
    NestedIff(s);
    NestedIff(Escape(s));
  }

  // The braces of the three names are nested, as they are when there are none.
  predicate Tidy(w: Wrap) { Nested(w.objectName) && Nested(w.requestId) && Nested(w.workId) }

  lemma FieldIsNested(name: string, value: string, rest: string)
    requires NoBrace(name) && Nested(value) && Nested(rest)
    ensures Nested(Field(name, value, rest))
  {
    EscapeIsNested(value);
    FlatIsNested(name);
    NestedConcat(Escape(value), rest);
    NestedConcat(name, Escape(value) + rest);
  }

  lemma FieldsAreNested(w: Wrap)
    requires Tidy(w)
    ensures Nested(Fields(w))
  {
    FlatIsNested("\"");
    FieldIsNested("\",\"work_id\":\"", w.workId, "\"");
    FieldIsNested("\",\"request_id\":\"", w.requestId, Field("\",\"work_id\":\"", w.workId, "\""));
    FieldIsNested(",\"object\":\"", w.objectName, Ids(w));
    ErrorIsNested();
    NestedConcat(ERROR, Field(",\"object\":\"", w.objectName, Ids(w)));
  }

  lemma ErrorIsNested()
    ensures Nested(ERROR)
  {
    InBraces(",\"error\":", "\"code\":0,\"message\":\"\"");
    assert ERROR == ",\"error\":" + ("{" + ("\"code\":0,\"message\":\"\"" + "}"));
  }

  lemma InBraces(name: string, inner: string)
    requires NoBrace(name) && NoBrace(inner)
    ensures Nested(name + ("{" + (inner + "}")))
  {
    BracedIsNested(inner);
    FlatIsNested(name);
    NestedConcat(name, "{" + (inner + "}"));
  }

  // The end of a message closes one brace and no more.
  lemma EndCloses(r: string, d: int)
    requires Nested(r) && d >= 0
    ensures Reaches(r + "}\n", -d) <==> d <= 1
  {
    var s := r + "}\n";
    forall k | 0 <= k <= |s| ensures Depth(s[..k]) >= -1 {
      EndDepth(r, k);
    }
    EndDepth(r, |r| + 1);
    assert s[..0] == "" && Depth("") == 0;
  }

  lemma EndDepth(r: string, k: nat)
    requires Nested(r) && k <= |r| + 2
    ensures var d := Depth((r + "}\n")[..k]); if k <= |r| then d >= 0 else d == -1
  {
    var s := r + "}\n";
    if k <= |r| {
      assert s[..k] == r[..k];
    } else {
      PrefixDepth(r, "}\n", k);
      assert "}\n"[..1] == "}" && "}"[..0] == "" && "}\n"[..2] == "}\n" && "}\n"[..2][..1] == "}";
      assert Depth("}") == -1 && Depth("}\n") == -1;
    }
  }

  // For a message whose names are tidy: at most one brace may be left open.
  lemma SurvivesIff(delta: string, w: Wrap)
    requires Tidy(w)
    ensures Survives(delta, Trailer(w)) <==> Faithful(delta) && !Low(delta) && Depth(delta) <= 1
  {
    FieldsAreNested(w);
    NestedIff(delta);
    if !Low(delta) {
      DepthOfNotLow(delta);
      EndCloses(Fields(w), Depth(delta));
    }
  }

  lemma TidyMessageIff(c: Chunk, w: Wrap)
    requires Proper(c) && Tidy(w)
    ensures
      Read(DataOf(Message(w, Printed(c)))) == Some(c)
      <==> Faithful(c.delta) && !Low(c.delta) && Depth(c.delta) <= 1
  {
    MessageIff(c, w);
    SurvivesIff(c.delta, w);
  }

  lemma DepthOfNotLow(s: string)
    requires !Low(s)
    ensures Depth(s) >= 0
  {
    assert s[..|s|] == s;
    if Depth(s) < 0 { NegativeIsLow(s, |s|); }
  }

  // The inputs that show it: a closing brace as a delta makes the reader throw, ...
  lemma BraceThrows(n: nat, w: Wrap)
    requires n <= INT_MAX
    ensures Faithful("}") && Read(DataOf(Message(w, Printed(Chunk(n, "}", false))))) == None
  {
    OneBrace();
    LowThrows(Chunk(n, "}", false), w);
  }

  // A delta that closes a brace too many is never read.
  lemma LowThrows(c: Chunk, w: Wrap)
    requires c.index >= 0 && Low(c.delta)
    ensures Read(DataOf(Message(w, Printed(c)))) == None
  {
    var data := DataOf(Message(w, Printed(c)));
    PrintedIsDeep(c, Trailer(w));
    DataIs(w.created, Printed(c) + Trailer(w));
    EscapeDepth(c.delta);
    var k := CutInside(Printed(c) + Trailer(w), Escape(c.delta), |Printed(c)|, Trailer(w), data);
    InsideReads(c, Trailer(w), k, data);
  }

  lemma OneBrace()
    ensures Low("}") && Depth("{") == 1 && !Low("{") && !Nested("{")
  {
    assert "}"[..0] == "" && "}"[..1] == "}" && Depth("}"[..1]) == -1;
    assert "{"[..0] == "" && "{"[..1] == "{" && Depth("{") == 1;
    assert Depth("{"[..|"{"|]) == 1;
  }

  // ... while an opening one arrives, although what is cut out is not the body.
  lemma BraceArrives(n: nat, w: Wrap)
    requires n <= INT_MAX && Tidy(w)
    ensures
      var c := Chunk(n, "{", false);
      var data := DataOf(Message(w, Printed(c)));
      data != Printed(c) && Read(data) == Some(c)
  {
    var c := Chunk(n, "{", false);
    OneBrace();
    EnvelopeData(w.created, c, Trailer(w));
    MessageIff(c, w);
    SurvivesIff("{", w);
  }

  // -------- a whole stream, from the worker --------

  datatype Parcel = Parcel(c: Chunk, w: Wrap)

  function ChunkOf(p: Parcel): Chunk { p.c }

  function Sealed(p: Parcel): string { Message(p.w, Printed(p.c)) }

  predicate Arrives(p: Parcel) { Survives(p.c.delta, Trailer(p.w)) }

  lemma ParcelTells(p: Parcel)
    requires Proper(ChunkOf(p))
    ensures Shape(ChunkOf(p), Arrives(p), Read(DataOf(Sealed(p))))
  {
    DataShape(p.w.created, p.c, Trailer(p.w));
  }

  // Main result, exactly: a numbered stream of messages, of which the finishing one comes last and the
  // others in any order, is put together to its text if and only if each of them survives.
  lemma SentIff(ps: seq<Parcel>, arrived: seq<string>)
    requires ps != [] && WellSent(Map(ChunkOf, ps)) && multiset(arrived) == multiset(Map(Sealed, Init(ps)))
    ensures
      Deliver(Map(DataOf, arrived + [Sealed(Last(ps))]), map[]) == Some((Finished, Deltas(Map(ChunkOf, ps)), map[]))
      <==> forall k :: 0 <= k < |ps| ==> Arrives(ps[k])
  {
    forall k | 0 <= k < |ps| ensures Shape(ChunkOf(ps[k]), Arrives(ps[k]), Read(DataOf(Sealed(ps[k])))) {
      ProperAt(Map(ChunkOf, ps), k);
      ParcelTells(ps[k]);
    }
    CutStreamIff(ps, ChunkOf, Sealed, DataOf, Arrives, arrived);
  }

  lemma ProperAt(sent: seq<Chunk>, k: nat)
    requires WellSent(sent) && k < |sent|
    ensures Proper(sent[k])
  {
  }

  // The same for any way of sealing chunks up and cutting them out again
  lemma CutStreamIff<P>(
      ps: seq<P>, chunk: P -> Chunk, seal: P -> string, cut: string -> string, survives: P -> bool,
      arrived: seq<string>)
    requires ps != [] && WellSent(Map(chunk, ps)) && multiset(arrived) == multiset(Map(seal, Init(ps)))
    requires forall k :: 0 <= k < |ps| ==> Shape(chunk(ps[k]), survives(ps[k]), Read(cut(seal(ps[k]))))
    ensures
      Deliver(Map(cut, arrived + [seal(Last(ps))]), map[]) == Some((Finished, Deltas(Map(chunk, ps)), map[]))
      <==> forall k :: 0 <= k < |ps| ==> survives(ps[k])
  {
    MapArrived(cut, seal, ps, arrived);
    StreamIff(Map(chunk, ps), Map(cut, Map(seal, ps)), Map(survives, ps), Map(cut, arrived));
    assert forall k :: 0 <= k < |ps| ==> Map(survives, ps)[k] == survives(ps[k]);
  }

  lemma MapArrived<A, B, C>(f: B -> C, g: A -> B, ps: seq<A>, arrived: seq<B>)
    requires ps != [] && multiset(arrived) == multiset(Map(g, Init(ps)))
    ensures multiset(Map(f, arrived)) == multiset(Init(Map(f, Map(g, ps))))
    ensures Map(f, arrived + [g(Last(ps))]) == Map(f, arrived) + [Last(Map(f, Map(g, ps)))]
  {
    MapInit(g, ps);
    MapInit(f, Map(g, ps));
    MapPermuted(f, arrived, Init(Map(g, ps)));
    MapConcat(f, arrived, [g(Last(ps))]);
    assert Map(f, [g(Last(ps))]) == [f(g(Last(ps)))];
  }

  // What an engine has said, when it has finished once, at the end
  predicate Spoken(calls: seq<NodeJobQueues.Call>) {
    0 < |calls| <= INT_MAX && Last(calls).finish && forall k :: 0 <= k < |calls| - 1 ==> !calls[k].finish
  }

  function TextOf(call: NodeJobQueues.Call): string { if call.finish then "" else call.text }

  function Said(calls: seq<NodeJobQueues.Call>): string {
    if calls == [] then "" else Said(Init(calls)) + TextOf(Last(calls))
  }

  // The chunks that a worker makes of it, each in its wrapping
  function Parcels(calls: seq<NodeJobQueues.Call>, wraps: seq<Wrap>): (ps: seq<Parcel>)
    requires |wraps| == |calls|
    ensures |ps| == |calls|
    ensures forall k :: 0 <= k < |ps| ==> ps[k] == Parcel(Chunk(k, TextOf(calls[k]), calls[k].finish), wraps[k])
  {
    if calls == [] then []
    else
      var n := |calls| - 1;
      Parcels(calls[..n], wraps[..n]) + [Parcel(Chunk(n, TextOf(calls[n]), calls[n].finish), wraps[n])]
  }

  // They are the messages that the worker has sent for the job, before an error if its engine has failed.
  lemma ParcelsAreSent(
      no: nat, calls: seq<NodeJobQueues.Call>, wraps: seq<Wrap>, ms: seq<NodeJobQueues.Message>)
    requires |wraps| == |calls| && NodeJobQueues.ChunksFor(no, calls) <= ms
    ensures SentAs(ms, Parcels(calls, wraps))
  {
    forall k | 0 <= k < |calls|
      ensures ms[k].Chunk? && Parcels(calls, wraps)[k].c == Chunk(ms[k].index, ms[k].delta, ms[k].finish) {
      assert ms[k] == NodeJobQueues.ChunksFor(no, calls)[k];
    }
  }

  // The first messages of a job are the chunks in these wrappings.
  predicate SentAs(ms: seq<NodeJobQueues.Message>, ps: seq<Parcel>) {
    && |ps| <= |ms|
    && forall k :: 0 <= k < |ps| ==> ms[k].Chunk? && ps[k].c == Chunk(ms[k].index, ms[k].delta, ms[k].finish)
  }

  lemma {:induction false} DeltasAreSaid(calls: seq<NodeJobQueues.Call>, wraps: seq<Wrap>)
    requires |wraps| == |calls|
    ensures Deltas(Map(ChunkOf, Parcels(calls, wraps))) == Said(calls)
  {
    if calls != [] {
      var n := |calls| - 1;
      DeltasAreSaid(calls[..n], wraps[..n]);
      var cs := Map(ChunkOf, Parcels(calls, wraps));
      assert Init(Parcels(calls, wraps)) == Parcels(calls[..n], wraps[..n]);
      MapInit(ChunkOf, Parcels(calls, wraps));
      assert cs[..n] == Init(cs);
    }
  }

  lemma ParcelsWellSent(calls: seq<NodeJobQueues.Call>, wraps: seq<Wrap>)
    requires Spoken(calls) && |wraps| == |calls|
    ensures WellSent(Map(ChunkOf, Parcels(calls, wraps)))
  {
    var cs := Map(ChunkOf, Parcels(calls, wraps));
    forall k | 0 <= k < |cs| ensures cs[k] == Chunk(k, TextOf(calls[k]), calls[k].finish) {
      assert cs[k] == ChunkOf(Parcels(calls, wraps)[k]);
    }
  }

  // Main result, exactly: whatever schedule a node's queue and worker have run, if the engine has finished
  // a job, the messages that were sent for it are put together to what the engine has said, with those
  // before the last in any order, if and only if each of its texts survives in its message.
  lemma WorkerStreamDecodes(
      max: nat, actions: seq<NodeJobQueues.Action>, s: NodeJobQueues.State, no: nat,
      calls: seq<NodeJobQueues.Call>, wraps: seq<Wrap>, arrived: seq<string>)
    requires NodeJobQueues.Reached(NodeJobQueues.Start(max), actions, s) && no < |s.popped|
    requires calls == NodeJobQueues.TaleOf(NodeJobQueues.UNTOLD, NodeJobQueues.Start(max), actions, no).heard
    requires Spoken(calls) && |wraps| == |calls|
    requires multiset(arrived) == multiset(Map(Sealed, Init(Parcels(calls, wraps))))
    ensures SentAs(NodeJobQueues.MessagesOf(s.sent, no), Parcels(calls, wraps))
    ensures
      Deliver(Map(DataOf, arrived + [Sealed(Last(Parcels(calls, wraps)))]), map[])
        == Some((Finished, Said(calls), map[]))
      <==> forall k :: 0 <= k < |calls| ==> Survives(TextOf(calls[k]), Trailer(wraps[k]))
  {
    NodeJobQueues.JobsAreTold(max, actions, s, no);
    ParcelsAreSent(no, calls, wraps, NodeJobQueues.MessagesOf(s.sent, no));
    SpokenArrives(calls, wraps, arrived);
  }

  lemma SpokenArrives(calls: seq<NodeJobQueues.Call>, wraps: seq<Wrap>, arrived: seq<string>)
    requires Spoken(calls) && |wraps| == |calls|
    requires multiset(arrived) == multiset(Map(Sealed, Init(Parcels(calls, wraps))))
    ensures
      Deliver(Map(DataOf, arrived + [Sealed(Last(Parcels(calls, wraps)))]), map[])
        == Some((Finished, Said(calls), map[]))
      <==> forall k :: 0 <= k < |calls| ==> Survives(TextOf(calls[k]), Trailer(wraps[k]))
  {
    ParcelsWellSent(calls, wraps);
    DeltasAreSaid(calls, wraps);
    SentIff(Parcels(calls, wraps), arrived);
    ArriveAlike(Parcels(calls, wraps), calls, wraps);
  }

  lemma ArriveAlike(ps: seq<Parcel>, calls: seq<NodeJobQueues.Call>, wraps: seq<Wrap>)
    requires |wraps| == |calls| && ps == Parcels(calls, wraps)
    ensures (forall k :: 0 <= k < |ps| ==> Arrives(ps[k])) <==>
      (forall k :: 0 <= k < |calls| ==> Survives(TextOf(calls[k]), Trailer(wraps[k])))
  {
    assert forall k :: 0 <= k < |ps| ==> (Arrives(ps[k]) <==> Survives(TextOf(calls[k]), Trailer(wraps[k])));
  }
}
