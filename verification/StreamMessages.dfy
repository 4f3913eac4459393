/** A stream's chunks as text: the body that the worker prints, and what is read back from it. */
module StreamMessages {
  import opened Text
  import opened JsonScan
  import opened DecodeStreams
  import NodeJobQueues

  // -------- the body, as the JSON library prints it --------

  function HexDigit(n: nat): char
    requires n < 16
  {
    if n < 10 then '0' + n as char else 'a' + (n - 10) as char
  }

  // A character of a string
  function EscapeChar(c: char): string {
    match c
    case '\U{0008}' => "\\b"
    case '\t' => "\\t"
    case '\n' => "\\n"
    case '\U{000C}' => "\\f"
    case '\r' => "\\r"
    case '"' => "\\\""
    case '\\' => "\\\\"
    case _ => if c as int < 0x20 then "\\u00" + [HexDigit(c as int / 16), HexDigit(c as int % 16)] else [c]
  }

  function Escape(s: string): string { if s == "" then "" else EscapeChar(s[0]) + Escape(s[1..]) }

  function PrintBool(b: bool): string { if b then "true" else "false" }

  const DELTA := "{\"delta\":\""

  // What stands behind the delta, and any text x behind that
  function Tail(finish: string, index: string, x: string): string {
    "\"," + ("\"finish\":" + (finish + ("," + ("\"index\":" + (index + ("}" + x))))))
  }

  // The keys are printed in order.
  function Printed(c: Chunk): string { PrintedThen(c, "") }

  function PrintedThen(c: Chunk, x: string): string {
    DELTA + (Escape(c.delta) + Tail(PrintBool(c.last), PrintInt(c.index), x))
  }

  // A body whose delta needs no escapes, as it looks
  lemma LooksLike(c: Chunk)
    requires AllPlain(c.delta)
    ensures Printed(c) ==
      "{\"delta\":\"" + (c.delta
      + ("\",\"finish\":" + (PrintBool(c.last) + (",\"index\":" + (PrintInt(c.index) + "}")))))
  {
    EscapeLength(c.delta);
    var index := PrintInt(c.index);
    Regroup(",", "\"index\":", index + "}");
    var rest := PrintBool(c.last) + (",\"index\":" + (index + "}"));
    Regroup("\",", "\"finish\":", rest);
    assert "}" + "" == "}";
  }

  lemma TailThen(finish: string, index: string, x: string)
    ensures Tail(finish, index, "") + x == Tail(finish, index, x)
  {
    assert "}" + "" + x == "}" + x;
    Regroup(index, "}" + "", x);
    Regroup("\"index\":", index + ("}" + ""), x);
    Regroup(",", "\"index\":" + (index + ("}" + "")), x);
    Regroup(finish, "," + ("\"index\":" + (index + ("}" + ""))), x);
    Regroup("\"finish\":", finish + ("," + ("\"index\":" + (index + ("}" + "")))), x);
    Regroup("\",", "\"finish\":" + (finish + ("," + ("\"index\":" + (index + ("}" + ""))))), x);
  }

  lemma Regroup(a: string, b: string, x: string)
    ensures (a + b) + x == a + (b + x)
  {
  }

  lemma ThenIs(c: Chunk, x: string)
    ensures PrintedThen(c, x) == Printed(c) + x
  {
    var t := Tail(PrintBool(c.last), PrintInt(c.index), "");
    TailThen(PrintBool(c.last), PrintInt(c.index), x);
    Regroup(Escape(c.delta), t, x);
    Regroup(DELTA, Escape(c.delta) + t, x);
  }

  // A character that is printed as it is
  predicate Plain(c: char) { c as int >= 0x20 && c != '"' && c != '\\' }

  predicate AllPlain(s: string) { forall i :: 0 <= i < |s| ==> Plain(s[i]) }

  lemma {:induction false} EscapeLength(s: string)
    ensures |Escape(s)| >= |s| && (|Escape(s)| == |s| <==> AllPlain(s)) && (AllPlain(s) ==> Escape(s) == s)
  {
    if s != "" {
      EscapeLength(s[1..]);
      assert |EscapeChar(s[0])| >= 1 && (|EscapeChar(s[0])| == 1 <==> Plain(s[0]));
      assert AllPlain(s) <==> Plain(s[0]) && AllPlain(s[1..]) by {
        assert forall i :: 0 <= i < |s[1..]| ==> s[1..][i] == s[i + 1];
        assert forall i :: 0 < i < |s| ==> s[i] == s[1..][i - 1];
      }
      assert s == [s[0]] + s[1..];
    }
  }

  // Each quote of a printed string stands behind a backslash.
  predicate QuotesEscaped(s: string) { forall k :: 0 <= k < |s| && s[k] == '"' ==> Escaped(s, k) }

  lemma {:induction false} EscapeQuotes(s: string)
    ensures QuotesEscaped(Escape(s))
  {
    if s != "" {
      EscapeQuotes(s[1..]);
      var a, b := EscapeChar(s[0]), Escape(s[1..]);
      assert QuotesEscaped(a);
      forall k | 0 <= k < |a + b| && (a + b)[k] == '"' ensures Escaped(a + b, k) {
        if k >= |a| {
          assert b[k - |a|] == '"';
        }
      }
    }
  }

  // -------- reading it back, key by key --------

  // A value that is missing
  lemma ScanComma(rest: string)
    requires rest != "" && rest[0] == ','
    ensures ScanValue(rest) == ""
  {
    FeedOver(Feed(FRESH, ','), rest[1..]);
  }

  // The first letters of the keys, and the marks between them, cannot be taken for another key.
  predicate PlainKey(key: string) {
    key != "" && (forall k :: 0 <= k < |key| ==> key[k] != '"' && key[k] != '\\') && key[0] != 'd' && key[0] != ':'
  }

  // A key that is found before its place is the end of the delta, with the quote that closes it.
  lemma EarlyKey(e: string, t: string, key: string, i: int)
    requires QuotesEscaped(e) && t != "" && t[0] == '"' && PlainKey(key)
    requires At(DELTA + (e + t), QuotedKey(key), i) && i < 10 + |e|
    ensures i >= 9 && i + |key| + 1 == 10 + |e|
  {
    var s, q, n := DELTA + (e + t), QuotedKey(key), |key|;
    assert q[0] == '"' && q[n + 1] == '"' && s[i + 0] == '"' && s[i + (n + 1)] == '"';
    assert forall k {:trigger key[k]} :: 0 <= k < n ==> q[k + 1] == key[k];
    assert q[1] == key[0] && s[i + 1] == key[0];
    assert s[2] == 'd' && s[8] == ':' && i >= 9;
    assert q[n] == key[n - 1] && s[i + n] == key[n - 1];
    assert forall k :: 10 <= k < 10 + |e| ==> s[k] == e[k - 10];
    assert s[10 + |e|] == '"';
    forall k | 10 <= k < 10 + |e| && s[k] == '"' ensures s[k - 1] == '\\' {
      assert e[k - 10] == '"' && Escaped(e, k - 10);
      assert s[k - 1] == e[k - 11];
    }
    forall k | i < k <= i + n ensures s[k] != '"' {
      assert q[k - i] == key[k - i - 1] && s[i + (k - i)] == q[k - i];
    }
  }

  // No quote of a starts a text whose second character is c.
  predicate NoStart(a: string, c: char) { forall k :: 0 <= k < |a| && a[k] == '"' ==> k + 1 < |a| && a[k + 1] != c }

  lemma AtStarts(s: string, q: string, i: int)
    requires At(s, q, i) && |q| >= 2
    ensures s[i] == q[0] && s[i + 1] == q[1]
  {
    assert s[i + 0] == q[0];
  }

  lemma Skip(a: string, b: string, q: string)
    requires |q| >= 2 && q[0] == '"' && NoStart(a, q[1])
    ensures Behind(a + b, q) == Behind(b, q)
  {
    forall i | 0 <= i < |a| ensures !At(a + b, q, i) {
      assert (a + b)[i] == a[i] && (i + 1 < |a| ==> (a + b)[i + 1] == a[i + 1]);
      if At(a + b, q, i) {
        AtStarts(a + b, q, i);
      }
    }
    BehindShift(a + b, |a|, q);
    assert (a + b)[|a|..] == b;
  }

  lemma BehindFirst(q: string, rest: string)
    ensures Behind(q + rest, q) == Some(rest)
  {
    assert At(q + rest, q, 0);
    FindTextFinds(q + rest, q);
    assert (q + rest)[|q|..] == rest;
  }

  // The keys behind the delta, in a tail on its own
  lemma TailFinish(finish: string, index: string, x: string)
    ensures Behind(Tail(finish, index, x), QuotedKey("finish")) ==
      Some(":" + (finish + ("," + ("\"index\":" + (index + ("}" + x))))))
  {
    var rest := finish + ("," + ("\"index\":" + (index + ("}" + x))));
    Skip("\",", "\"finish\":" + rest, QuotedKey("finish"));
    assert "\"finish\":" + rest == QuotedKey("finish") + (":" + rest);
    BehindFirst(QuotedKey("finish"), ":" + rest);
  }

  lemma SkipToIndex(finish: string, u: string)
    requires '"' !in finish
    ensures Behind("\"," + ("\"finish\":" + (finish + ("," + u))), QuotedKey("index")) == Behind(u, QuotedKey("index"))
  {
    var q := QuotedKey("index");
    Skip("\",", "\"finish\":" + (finish + ("," + u)), q);
    Skip("\"finish\":", finish + ("," + u), q);
    Skip(finish, "," + u, q);
    Skip(",", u, q);
  }

  lemma TailIndex(finish: string, index: string, x: string)
    requires '"' !in finish
    ensures Behind(Tail(finish, index, x), QuotedKey("index")) == Some(":" + (index + ("}" + x)))
  {
    var u := "\"index\":" + (index + ("}" + x));
    SkipToIndex(finish, u);
    assert u == QuotedKey("index") + (":" + (index + ("}" + x)));
    BehindFirst(QuotedKey("index"), ":" + (index + ("}" + x)));
  }

  // Printed text ends in a key, at its own start or behind a quote.
  predicate EndsIn(e: string, key: string) {
    && |e| >= |key| && e[|e| - |key|..] == key
    && (|e| > |key| ==> e[|e| - |key| - 1] == '"')
  }

  // A key behind the delta is found in its place, or the delta ends in it.
  lemma KeyBehind(e: string, t: string, key: string)
    requires QuotesEscaped(e) && |t| >= 2 && t[0] == '"' && PlainKey(key) && Behind(t, QuotedKey(key)).Some?
    ensures
      || Behind(DELTA + (e + t), QuotedKey(key)) == Behind(t, QuotedKey(key))
      || (EndsIn(e, key) && Behind(DELTA + (e + t), QuotedKey(key)) == Some(t[1..]))
  {
    var s, q := DELTA + (e + t), QuotedKey(key);
    var n := 10 + |e|;
    assert s[n..] == t;
    FindTextFinds(s, q);
    var r := FindText(s, q);
    if 0 <= r < n {
      EarlyKey(e, t, key, r);
      assert s[r + |q|..] == t[1..];
      EndsInKey(e, t, key, r);
    } else {
      BehindShift(s, n, q);
    }
  }

  lemma EndsInKey(e: string, t: string, key: string, i: int)
    requires At(DELTA + (e + t), QuotedKey(key), i) && i >= 9 && i + |key| + 1 == 10 + |e|
    ensures EndsIn(e, key)
  {
    var s, q := DELTA + (e + t), QuotedKey(key);
    assert q[0] == '"' && s[i + 0] == q[0] && (i > 9 ==> s[i] == e[i - 10]);
    forall k | 0 <= k < |key| ensures e[|e| - |key| + k] == key[k] {
      assert q[k + 1] == key[k] && s[i + (k + 1)] == q[k + 1];
      assert s[i + k + 1] == e[i + k - 9];
    }
  }

  // The value of a key behind the delta is read, or nothing if the delta ends in the key; and a
  // plain delta ends in it only if it is the key.
  lemma KeyScan(e: string, t: string, key: string, rest: string)
    requires QuotesEscaped(e) && |t| >= 2 && t[0] == '"' && t[1] == ',' && PlainKey(key)
    requires Behind(t, QuotedKey(key)) == Some(rest)
    ensures Scan(DELTA + (e + t), key) == ScanValue(rest) || (EndsIn(e, key) && Scan(DELTA + (e + t), key) == "")
    ensures !EndsIn(e, key) || (AllPlain(e) && e != key) ==> Scan(DELTA + (e + t), key) == ScanValue(rest)
    ensures e == key ==> Scan(DELTA + (e + t), key) == ""
  {
    KeyBehind(e, t, key);
    ScanComma(t[1..]);
    if e == key {
      KeyIsDelta(t, key);
    }
    assert AllPlain(e) && EndsIn(e, key) ==> e == key by {
      if AllPlain(e) && EndsIn(e, key) {
        assert |e| == |key| && e[0..] == e;
      }
    }
  }

  lemma KeyIsDelta(t: string, key: string)
    requires t != "" && t[0] == '"' && PlainKey(key)
    ensures Behind(DELTA + (key + t), QuotedKey(key)) == Some(t[1..])
  {
    var s, q := DELTA + (key + t), QuotedKey(key);
    assert s == "{\"delta\":" + (q + t[1..]);
    Skip("{\"delta\":", q + t[1..], q);
    BehindFirst(q, t[1..]);
  }

  lemma ValueOfWord(word: string, stop: char, rest: string)
    requires Bare(word) && (stop == ',' || stop == '}')
    ensures ScanValue(":" + (word + ([stop] + rest))) == word
  {
    ScanBare(":", word, stop, rest);
    assert ":" + (word + ([stop] + rest)) == ":" + word + [stop] + rest;
  }

  lemma FinishOf(e: string, word: string, index: string, x: string)
    requires QuotesEscaped(e) && Bare(word)
    ensures var r := Scan(DELTA + (e + Tail(word, index, x)), "finish"); r == word || r == ""
    ensures !EndsIn(e, "finish") || (AllPlain(e) && e != "finish") ==>
      Scan(DELTA + (e + Tail(word, index, x)), "finish") == word
    ensures e == "finish" ==> Scan(DELTA + (e + Tail(word, index, x)), "finish") == ""
  {
    TailFinish(word, index, x);
    var rest := "\"index\":" + (index + ("}" + x));
    ValueOfWord(word, ',', rest);
    KeyScan(e, Tail(word, index, x), "finish", ":" + (word + ("," + rest)));
  }

  lemma IndexOf(e: string, word: string, index: string, x: string)
    requires QuotesEscaped(e) && Bare(word) && Bare(index)
    ensures var r := Scan(DELTA + (e + Tail(word, index, x)), "index"); r == index || r == ""
    ensures !EndsIn(e, "index") || (AllPlain(e) && e != "index") ==>
      Scan(DELTA + (e + Tail(word, index, x)), "index") == index
    ensures e == "index" ==> Scan(DELTA + (e + Tail(word, index, x)), "index") == ""
  {
    assert '"' !in word by { assert '"' in "\"{:,} "; }
    TailIndex(word, index, x);
    ValueOfWord(index, '}', x);
    KeyScan(e, Tail(word, index, x), "index", ":" + (index + ("}" + x)));
  }

  // Printed text that has no quote in it, and whose end does not escape the quote behind it
  predicate Closed(e: string) { '"' !in e && (e != "" ==> e[|e| - 1] != '\\') }

  lemma DeltaOf(e: string, t: string)
    requires QuotesEscaped(e) && |t| >= 3 && t[0] == '"' && t[1] == ',' && t[2] == '"'
    ensures |Scan(DELTA + (e + t), "delta")| >= |e|
    ensures Closed(e) ==> Scan(DELTA + (e + t), "delta") == e
  {
    var q, v := QuotedKey("delta"), e + t;
    var behind := ":" + "\"" + v;
    assert DELTA + v == "{" + (q + behind);
    Skip("{", q + behind, q);
    BehindFirst(q, behind);
    ScanQuoted(":", v);
    DeltaEnds(e, t);
  }

  lemma WordsAreBare(b: bool, n: nat)
    ensures Bare(PrintBool(b)) && Bare(Print(n))
  {
    forall d | d in Print(n) ensures d !in "\"{:,} " { }
  }

  // Finish and index are read as they were sent, or not at all; the latter, of a plain delta, if it
  // is the key itself. Whatever follows the body makes no difference.
  lemma ScanFinish(c: Chunk, x: string)
    requires c.index >= 0
    ensures var r := Scan(PrintedThen(c, x), "finish"); r == PrintBool(c.last) || r == ""
    ensures AllPlain(c.delta) && c.delta != "finish" ==> Scan(PrintedThen(c, x), "finish") == PrintBool(c.last)
    ensures c.delta == "finish" ==> Scan(PrintedThen(c, x), "finish") == ""
  {
    EscapeQuotes(c.delta);
    EscapeLength(c.delta);
    WordsAreBare(c.last, c.index);
    FinishOf(Escape(c.delta), PrintBool(c.last), Print(c.index), x);
  }

  lemma ScanIndex(c: Chunk, x: string)
    requires c.index >= 0
    ensures var r := Scan(PrintedThen(c, x), "index"); r == Print(c.index) || r == ""
    ensures AllPlain(c.delta) && c.delta != "index" ==> Scan(PrintedThen(c, x), "index") == Print(c.index)
    ensures c.delta == "index" ==> Scan(PrintedThen(c, x), "index") == ""
  {
    EscapeQuotes(c.delta);
    EscapeLength(c.delta);
    WordsAreBare(c.last, c.index);
    IndexOf(Escape(c.delta), PrintBool(c.last), Print(c.index), x);
  }

  // The delta is read up to its end if it is plain, and never gets shorter.
  lemma ScanDelta(c: Chunk, x: string)
    requires c.index >= 0
    ensures |Scan(PrintedThen(c, x), "delta")| >= |Escape(c.delta)|
    ensures AllPlain(c.delta) ==> Scan(PrintedThen(c, x), "delta") == c.delta
  {
    EscapeQuotes(c.delta);
    EscapeLength(c.delta);
    DeltaOf(Escape(c.delta), Tail(PrintBool(c.last), Print(c.index), x));
    assert AllPlain(c.delta) ==> Closed(c.delta);
  }

  lemma DeltaEnds(e: string, t: string)
    requires QuotesEscaped(e) && |t| >= 3 && t[0] == '"' && t[1] == ',' && t[2] == '"'
    ensures (exists x :: Ends(e + t, x)) && (forall x :: Ends(e + t, x) ==> x >= |e| && |(e + t)[..x]| >= |e|)
    ensures Closed(e) ==> Ends(e + t, |e|) && (e + t)[..|e|] == e
  {
    var v, n := e + t, |e|;
    assert v[n] == '"' && v[n + 1] == ',' && v[n + 2] == '"';
    forall k | 0 <= k < n && v[k] == '"' ensures Escaped(v, k) {
      assert e[k] == '"';
    }
    assert Ends(v, if Escaped(v, n) then n + 2 else n);
  }

  // -------- one chunk --------

  // A chunk as the worker sends it: its index fits an int, and the finishing one has no text.
  predicate Proper(c: Chunk) { 0 <= c.index <= INT_MAX && (c.last ==> c.delta == "") }

  // A delta that survives
  predicate Faithful(delta: string) { AllPlain(delta) && delta != "index" && delta != "finish" }

  // What is read from a printed chunk, whatever follows it: nothing, or a chunk of the same number
  // that is not shorter, and is longer if anything had to be escaped
  lemma ReadShape(c: Chunk, x: string)
    requires Proper(c)
    ensures Shape(c, Faithful(c.delta), Read(PrintedThen(c, x)))
  {
    var p := PrintedThen(c, x);
    ScanFinish(c, x);
    ScanIndex(c, x);
    ScanDelta(c, x);
    EscapeLength(c.delta);
    ReadParts(c, Scan(p, "index"), Scan(p, "delta"), Scan(p, "finish"));
  }

  // What has been read of a chunk, which is the chunk itself exactly when it survives
  predicate Shape(c: Chunk, survives: bool, r: Option<Chunk>) {
    && (survives ==> r == Some(c))
    && match r
       case None => !survives
       case Some(r) =>
         && r.index == c.index && |r.delta| >= |c.delta| && (c.last ==> r.last)
         && (r.last == c.last && |r.delta| == |c.delta| ==> survives)
  }

  lemma ReadParts(c: Chunk, index: string, delta: string, finish: string)
    requires Proper(c)
    requires index == (if c.delta == "index" then "" else Print(c.index)) || (!AllPlain(c.delta) && index == "")
    requires finish == (if c.delta == "finish" then "" else PrintBool(c.last)) || (!AllPlain(c.delta) && finish == "")
    requires if AllPlain(c.delta) then delta == c.delta else |delta| > |c.delta|
    ensures Shape(c, Faithful(c.delta), ReadOf(index, delta, finish))
  {
    StoiOfPrint(c.index, "");
    assert Print(c.index) + "" == Print(c.index);
    assert Stoi("") == None;
    assert 'f' in PrintBool(false) by { assert PrintBool(false)[0] == 'f'; }
    assert 'f' !in PrintBool(true);
  }

  // Main result, exactly: a chunk that is printed is read back if and only if nothing in its delta
  // has to be escaped and the delta is neither of the two words that are scanned for.
  lemma ReadIff(c: Chunk)
    requires Proper(c)
    ensures Read(Printed(c)) == Some(c) <==> Faithful(c.delta)
  {
    ReadShape(c, "");
  }

  // The inputs that show it: a delta that is the word index makes the scan for the number throw, ...
  lemma IndexThrows(n: nat)
    requires n <= INT_MAX
    ensures Read(Printed(Chunk(n, "index", false))) == None
  {
    ScanIndex(Chunk(n, "index", false), "");
    assert Stoi("") == None;
  }

  // ... one that is the word finish finishes the stream, ...
  lemma FinishFinishes(n: nat)
    requires n <= INT_MAX
    ensures Read(Printed(Chunk(n, "finish", false))) == Some(Chunk(n, "finish", true))
  {
    FinishParts(Chunk(n, "finish", false));
    ReadNumbered(n, "finish", "");
  }

  lemma FinishParts(c: Chunk)
    requires c.index >= 0 && c.delta == "finish"
    ensures
      var p := Printed(c);
      Scan(p, "index") == Print(c.index) && Scan(p, "delta") == c.delta && Scan(p, "finish") == ""
  {
    ScanFinish(c, "");
    ScanIndex(c, "");
    ScanDelta(c, "");
  }

  // ... and a newline arrives as the two characters that it is printed as.
  lemma NewlineStaysEscaped(n: nat)
    requires n <= INT_MAX
    ensures Read(Printed(Chunk(n, "\n", false))) == Some(Chunk(n, "\\n", false))
  {
    assert Escape("\n") == "\\n" by { assert "\n"[1..] == "" && Escape("") == ""; }
    NewlineScans(n);
    assert "false"[0] == 'f';
    ReadNumbered(n, "\\n", "false");
  }

  lemma NewlineScans(n: nat)
    ensures
      var p := DELTA + ("\\n" + Tail("false", Print(n), ""));
      Scan(p, "finish") == "false" && Scan(p, "index") == Print(n) && Scan(p, "delta") == "\\n"
  {
    var e := "\\n";
    WordsAreBare(false, n);
    assert !EndsIn(e, "finish") && !EndsIn(e, "index") && QuotesEscaped(e) && Closed(e);
    FinishOf(e, "false", Print(n), "");
    IndexOf(e, "false", Print(n), "");
    DeltaOf(e, Tail("false", Print(n), ""));
  }

  lemma ReadNumbered(n: nat, delta: string, finish: string)
    requires n <= INT_MAX
    ensures
      var r := ReadOf(Print(n), delta, finish);
      r.Some? && r.value.index == n && r.value.delta == delta && (r.value.last <==> 'f' !in finish)
  {
    StoiOfPrint(n, "");
    assert Print(n) + "" == Print(n);
  }

  // -------- a whole stream --------

  // decode_stream, called with one message after another; None once a call throws, or finishes
  // before the end
  function Deliver(messages: seq<string>, buff: map<int, string>): Option<(Result, string, map<int, string>)>
    decreases messages
  {
    if messages == [] then Some((More, "", buff))
    else
      var t := Outcome(messages[0], buff);
      if |messages| == 1 then Some(t) else if t.0 != More then None else Deliver(messages[1..], t.2)
  }

  function Map<A, B>(f: A -> B, s: seq<A>): (r: seq<B>)
    ensures |r| == |s| && forall k :: 0 <= k < |s| ==> r[k] == f(s[k])
  {
    if s == [] then [] else [f(s[0])] + Map(f, s[1..])
  }

  lemma {:induction false} MapConcat<A, B>(f: A -> B, a: seq<A>, b: seq<A>)
    ensures Map(f, a + b) == Map(f, a) + Map(f, b)
  {
  }

  lemma Without<A>(u: seq<A>, x: A, v: seq<A>)
    ensures multiset(u + ([x] + v)) == multiset(u + v) + multiset{x}
  {
  }

  lemma MapWithout<A, B>(f: A -> B, u: seq<A>, x: A, v: seq<A>)
    ensures multiset(Map(f, u + ([x] + v))) == multiset(Map(f, u + v)) + multiset{f(x)}
  {
    MapConcat(f, u, [x] + v);
    MapConcat(f, [x], v);
    MapConcat(f, u, v);
    Without(Map(f, u), f(x), Map(f, v));
    assert Map(f, [x]) == [f(x)];
  }

  lemma Cancel<A>(a: multiset<A>, b: multiset<A>, x: A)
    requires a + multiset{x} == b + multiset{x}
    ensures a == b
  {
    assert forall e :: e in a || e in b ==> (a + multiset{x})[e] == (b + multiset{x})[e];
  }

  lemma SameRest<A>(x: A, rest: seq<A>, u: seq<A>, v: seq<A>)
    requires multiset([] + ([x] + rest)) == multiset(u + ([x] + v))
    ensures multiset(rest) == multiset(u + v)
  {
    Without([], x, rest);
    Without(u, x, v);
    Cancel(multiset([] + rest), multiset(u + v), x);
    assert [] + rest == rest;
  }

  lemma {:induction false} MapPermuted<A, B>(f: A -> B, a: seq<A>, b: seq<A>)
    requires multiset(a) == multiset(b)
    ensures multiset(Map(f, a)) == multiset(Map(f, b))
    decreases a
  {
    if a == [] {
      assert |multiset(b)| == 0 && b == [];
    } else {
      var x, rest := a[0], a[1..];
      var u, v := TakeOut(x, rest, a, b);
      MapPermuted(f, rest, u + v);
      PutBack(f, x, rest, u, v);
    }
  }

  lemma TakeOut<A>(x: A, rest: seq<A>, a: seq<A>, b: seq<A>) returns (u: seq<A>, v: seq<A>)
    requires a != [] && x == a[0] && rest == a[1..] && multiset(a) == multiset(b)
    ensures a == [] + ([x] + rest) && b == u + ([x] + v) && multiset(rest) == multiset(u + v)
  {
    assert x in multiset(a) && x in multiset(b);
    var j :| 0 <= j < |b| && b[j] == x;
    u, v := b[..j], b[j + 1..];
    assert a == [] + ([x] + rest) && b == u + ([x] + v);
    SameRest(x, rest, u, v);
  }

  lemma PutBack<A, B>(f: A -> B, x: A, rest: seq<A>, u: seq<A>, v: seq<A>)
    requires multiset(Map(f, rest)) == multiset(Map(f, u + v))
    ensures multiset(Map(f, [] + ([x] + rest))) == multiset(Map(f, u + ([x] + v)))
  {
    MapWithout(f, [], x, rest);
    MapWithout(f, u, x, v);
    assert [] + rest == rest;
  }

  predicate Readable(message: string) { Read(message).Some? }

  // What is read from a message, if anything is
  function ReadOr(message: string): Chunk {
    match Read(message)
    case None => Chunk(-1, "", false)
    case Some(c) => c
  }

  function Reads(messages: seq<string>): seq<Chunk> { Map(ReadOr, messages) }

  lemma DeliverOne(message: string, buff: map<int, string>)
    requires Readable(message)
    ensures Outcome(message, buff) == Take(buff, ReadOr(message))
  {
  }

  lemma {:induction false} DeliverReads(messages: seq<string>, buff: map<int, string>)
    requires forall i :: 0 <= i < |messages| ==> Readable(messages[i])
    ensures Deliver(messages, buff) == TakeAll(buff, Reads(messages))
    decreases messages
  {
    if messages != [] {
      DeliverOne(messages[0], buff);
      var t := Outcome(messages[0], buff);
      assert Reads(messages)[1..] == Reads(messages[1..]);
      if |messages| > 1 && t.0 == More {
        DeliverReads(messages[1..], t.2);
      }
    }
  }

  // A message that is not thrown out, and one that finishes
  lemma OutcomeReads(message: string, buff: map<int, string>)
    ensures Outcome(message, buff).0 != Thrown ==> Readable(message)
    ensures Outcome(message, buff).0 == More ==> Goes(message)
  {
  }

  predicate Goes(message: string) { Readable(message) && !ReadOr(message).last }

  lemma DeliverMore(messages: seq<string>, last: string, buff: map<int, string>)
    requires messages != [] && Deliver(messages + [last], buff).Some?
    ensures Outcome(messages[0], buff).0 == More
    ensures Deliver(messages + [last], buff) == Deliver(messages[1..] + [last], Outcome(messages[0], buff).2)
  {
    assert (messages + [last])[1..] == messages[1..] + [last];
  }

  // What a stream that finishes says about its messages
  lemma {:induction false} DeliverFinished(messages: seq<string>, last: string, buff: map<int, string>)
    requires Finishes(Deliver(messages + [last], buff))
    ensures Readable(last) && forall i :: 0 <= i < |messages| ==> Goes(messages[i])
    decreases messages
  {
    if messages == [] {
      assert messages + [last] == [last];
      OutcomeReads(last, buff);
    } else {
      DeliverMore(messages, last, buff);
      OutcomeReads(messages[0], buff);
      DeliverFinished(messages[1..], last, Outcome(messages[0], buff).2);
      AllGo(messages);
    }
  }

  predicate Finishes(d: Option<(Result, string, map<int, string>)>) { d.Some? && d.value.0 == Finished }

  lemma AllGo(messages: seq<string>)
    requires messages != [] && Goes(messages[0])
    requires forall i :: 0 <= i < |messages[1..]| ==> Goes(messages[1..][i])
    ensures forall i :: 0 <= i < |messages| ==> Goes(messages[i])
  {
    forall i | 0 <= i < |messages| ensures Goes(messages[i]) {
      assert i > 0 ==> messages[i] == messages[1..][i - 1];
    }
  }

  function Bodies(cs: seq<Chunk>): seq<string> { Map(Printed, cs) }

  lemma {:induction false} DeltasLength(a: seq<Chunk>, b: seq<Chunk>)
    requires |a| == |b| && forall k :: 0 <= k < |a| ==> |a[k].delta| >= |b[k].delta|
    ensures |Deltas(a)| >= |Deltas(b)|
    ensures |Deltas(a)| == |Deltas(b)| ==> forall k :: 0 <= k < |a| ==> |a[k].delta| == |b[k].delta|
  {
    if a != [] {
      DeltasLength(a[..|a| - 1], b[..|b| - 1]);
    }
  }

  // A stream as the worker sends it
  predicate WellSent(sent: seq<Chunk>) {
    && Numbered(sent) && 0 < |sent| <= INT_MAX
    && (forall k :: 0 <= k < |sent| ==> Proper(sent[k]))
    && sent[|sent| - 1].last && forall k :: 0 <= k < |sent| - 1 ==> !sent[k].last
  }

  function Init<A>(s: seq<A>): seq<A>
    requires s != []
  {
    s[..|s| - 1]
  }

  function Last<A>(s: seq<A>): A
    requires s != []
  {
    s[|s| - 1]
  }

  // The bodies before the last, in some order
  predicate Arrived(sent: seq<Chunk>, arrived: seq<string>)
    requires sent != []
  {
    multiset(arrived) == multiset(Bodies(Init(sent)))
  }

  lemma ReadsBack(sent: seq<Chunk>, texts: seq<string>)
    requires |texts| == |sent| && forall k :: 0 <= k < |sent| ==> Read(texts[k]) == Some(sent[k])
    ensures forall k :: 0 <= k < |sent| ==> Readable(texts[k])
    ensures Reads(texts) == sent
  {
    MapIs(ReadOr, texts, sent);
  }

  lemma MapIs<A, B>(f: A -> B, s: seq<A>, r: seq<B>)
    requires |s| == |r| && forall k :: 0 <= k < |s| ==> f(s[k]) == r[k]
    ensures Map(f, s) == r
  {
  }

  lemma AllReadable(a: seq<string>, b: seq<string>)
    requires multiset(a) == multiset(b) && forall i :: 0 <= i < |a| ==> Readable(a[i])
    ensures forall i :: 0 <= i < |b| ==> Readable(b[i])
  {
    forall i | 0 <= i < |b| ensures Readable(b[i]) {
      assert b[i] in multiset(b) && b[i] in a;
    }
  }

  // Readable messages are put together as what is read from them is.
  lemma DeliverAs(got: seq<Chunk>, bodies: seq<string>, arrived: seq<string>, last: string)
    requires multiset(arrived) == multiset(bodies) && |got| == |bodies| + 1
    requires Readable(last) && forall i :: 0 <= i < |bodies| ==> Readable(bodies[i])
    requires Reads(bodies) == got[..|bodies|] && ReadOr(last) == got[|bodies|]
    requires Numbered(got) && got[|bodies|].last && forall k :: 0 <= k < |bodies| ==> !got[k].last
    ensures Deliver(arrived + [last], map[]) == Some((Finished, Deltas(got), map[]))
  {
    AllReadable(bodies, arrived);
    MapPermuted(ReadOr, arrived, bodies);
    MapConcat(ReadOr, arrived, [last]);
    DeliverReads(arrived + [last], map[]);
    assert Reads([last]) == [got[|got| - 1]];
    AnyOrder(got, Reads(arrived));
  }

  // Texts of which one after the other may be read as the chunks of a stream
  predicate Tell(sent: seq<Chunk>, texts: seq<string>, survive: seq<bool>) {
    && |texts| == |sent| == |survive|
    && forall k :: 0 <= k < |sent| ==> Shape(sent[k], survive[k], Read(texts[k]))
  }

  lemma SurvivorsArrive(sent: seq<Chunk>, texts: seq<string>, survive: seq<bool>, arrived: seq<string>)
    requires WellSent(sent) && Tell(sent, texts, survive) && multiset(arrived) == multiset(Init(texts))
    requires forall k :: 0 <= k < |sent| ==> survive[k]
    ensures Deliver(arrived + [Last(texts)], map[]) == Some((Finished, Deltas(sent), map[]))
  {
    ReadsBack(Init(sent), Init(texts));
    DeliverAs(sent, Init(texts), arrived, Last(texts));
  }

  // One chunk of a stream that finished, as it was sent and as it was read
  predicate Alike(got: Chunk, sent: Chunk, survives: bool) {
    && got.index == sent.index && got.last == sent.last && |got.delta| >= |sent.delta|
    && (|got.delta| == |sent.delta| ==> survives)
  }

  // What was read, when the stream finished
  lemma FinishedAlike(sent: seq<Chunk>, texts: seq<string>, survive: seq<bool>, arrived: seq<string>)
    returns (got: seq<Chunk>)
    requires WellSent(sent) && Tell(sent, texts, survive) && multiset(arrived) == multiset(Init(texts))
    requires Finishes(Deliver(arrived + [Last(texts)], map[]))
    ensures |got| == |sent| && Reads(Init(texts)) == Init(got) && ReadOr(Last(texts)) == Last(got)
    ensures Readable(Last(texts)) && forall k :: 0 <= k < |sent| - 1 ==> Readable(Init(texts)[k])
    ensures forall k :: 0 <= k < |sent| ==> Alike(got[k], sent[k], survive[k])
  {
    DeliverFinished(arrived, Last(texts), map[]);
    AllReadable(arrived, Init(texts));
    InitAlike(Init(sent), Init(texts), Init(survive), arrived);
    LastAlike(Last(sent), Last(survive), Last(texts));
    got := PushAlike(Reads(Init(texts)), ReadOr(Last(texts)), sent, survive);
  }

  lemma PushAlike(first: seq<Chunk>, last: Chunk, sent: seq<Chunk>, survive: seq<bool>) returns (got: seq<Chunk>)
    requires |first| + 1 == |sent| == |survive| && Alike(last, Last(sent), Last(survive))
    requires forall k :: 0 <= k < |first| ==> Alike(first[k], Init(sent)[k], Init(survive)[k])
    ensures |got| == |sent| && Init(got) == first && Last(got) == last
    ensures forall k :: 0 <= k < |sent| ==> Alike(got[k], sent[k], survive[k])
  {
    got := first + [last];
    forall k | 0 <= k < |first| ensures Alike(got[k], sent[k], survive[k]) {
      assert Alike(first[k], Init(sent)[k], Init(survive)[k]);
    }
  }

  lemma InitAlike(sent: seq<Chunk>, texts: seq<string>, survive: seq<bool>, arrived: seq<string>)
    requires Tell(sent, texts, survive) && multiset(arrived) == multiset(texts)
    requires forall k :: 0 <= k < |sent| ==> !sent[k].last
    requires forall i :: 0 <= i < |arrived| ==> Goes(arrived[i])
    ensures forall k :: 0 <= k < |sent| ==> Alike(Reads(texts)[k], sent[k], survive[k])
  {
    forall k | 0 <= k < |sent| ensures Alike(Reads(texts)[k], sent[k], survive[k]) {
      TextAlike(sent[k], survive[k], texts, arrived, k);
    }
  }

  lemma LastAlike(c: Chunk, survives: bool, text: string)
    requires c.last && Shape(c, survives, Read(text)) && Readable(text)
    ensures Alike(ReadOr(text), c, survives)
  {
  }

  lemma TextAlike(c: Chunk, survives: bool, texts: seq<string>, arrived: seq<string>, k: nat)
    requires multiset(arrived) == multiset(texts) && k < |texts| && !c.last && Shape(c, survives, Read(texts[k]))
    requires forall i :: 0 <= i < |arrived| ==> Goes(arrived[i])
    ensures Alike(ReadOr(texts[k]), c, survives)
  {
    assert texts[k] in multiset(texts) && texts[k] in arrived;
    var i :| 0 <= i < |arrived| && arrived[i] == texts[k];
    assert Goes(arrived[i]);
  }

  lemma FinishedSurvive(sent: seq<Chunk>, texts: seq<string>, survive: seq<bool>, arrived: seq<string>)
    requires WellSent(sent) && Tell(sent, texts, survive) && multiset(arrived) == multiset(Init(texts))
    requires Deliver(arrived + [Last(texts)], map[]) == Some((Finished, Deltas(sent), map[]))
    ensures forall k :: 0 <= k < |sent| ==> survive[k]
  {
    var got := FinishedAlike(sent, texts, survive, arrived);
    AlikeNumbered(got, sent, survive);
    DeliverAs(got, Init(texts), arrived, Last(texts));
    DeltasLength(got, sent);
  }

  lemma AlikeNumbered(got: seq<Chunk>, sent: seq<Chunk>, survive: seq<bool>)
    requires WellSent(sent) && |got| == |sent| == |survive|
    requires forall k :: 0 <= k < |sent| ==> Alike(got[k], sent[k], survive[k])
    ensures Numbered(got) && Last(got).last && forall k :: 0 <= k < |got| - 1 ==> !got[k].last
  {
  }

  // Main result, exactly: a numbered stream, of which the finishing text comes last and the others
  // in any order, is put together to its text if and only if each of its chunks survives.
  lemma StreamIff(sent: seq<Chunk>, texts: seq<string>, survive: seq<bool>, arrived: seq<string>)
    requires WellSent(sent) && Tell(sent, texts, survive) && multiset(arrived) == multiset(Init(texts))
    ensures
      Deliver(arrived + [Last(texts)], map[]) == Some((Finished, Deltas(sent), map[]))
      <==> forall k :: 0 <= k < |sent| ==> survive[k]
  {
    if forall k :: 0 <= k < |sent| ==> survive[k] {
      SurvivorsArrive(sent, texts, survive, arrived);
    } else if Deliver(arrived + [Last(texts)], map[]) == Some((Finished, Deltas(sent), map[])) {
      FinishedSurvive(sent, texts, survive, arrived);
    }
  }

  // For the bodies as they are printed, these are the faithful ones.
  lemma MessagesIff(sent: seq<Chunk>, arrived: seq<string>)
    requires WellSent(sent) && Arrived(sent, arrived)
    ensures
      Deliver(arrived + [Printed(Last(sent))], map[]) == Some((Finished, Deltas(sent), map[]))
      <==> forall k :: 0 <= k < |sent| ==> Faithful(sent[k].delta)
  {
    BodiesTell(sent);
    MapInit(Printed, sent);
    StreamIff(sent, Bodies(sent), Map(IsFaithful, sent), arrived);
  }

  predicate IsFaithful(c: Chunk) { Faithful(c.delta) }

  lemma BodiesTell(sent: seq<Chunk>)
    requires forall k :: 0 <= k < |sent| ==> Proper(sent[k])
    ensures Tell(sent, Bodies(sent), Map(IsFaithful, sent))
  {
    forall k | 0 <= k < |sent| ensures Shape(sent[k], IsFaithful(sent[k]), Read(Printed(sent[k]))) {
      BodyTells(sent[k]);
    }
    TellMap(Printed, IsFaithful, sent);
  }

  lemma TellMap(text: Chunk -> string, survives: Chunk -> bool, sent: seq<Chunk>)
    requires forall k :: 0 <= k < |sent| ==> Shape(sent[k], survives(sent[k]), Read(text(sent[k])))
    ensures Tell(sent, Map(text, sent), Map(survives, sent))
  {
  }

  lemma BodyTells(c: Chunk)
    requires Proper(c)
    ensures Shape(c, IsFaithful(c), Read(Printed(c)))
  {
    ReadShape(c, "");
  }

  lemma MapInit<A, B>(f: A -> B, s: seq<A>)
    requires s != []
    ensures Map(f, Init(s)) == Init(Map(f, s)) && Last(Map(f, s)) == f(Last(s))
  {
  }

  // -------- from the worker --------

  // The chunks among the worker's messages
  function Chunks(ms: seq<NodeJobQueues.Message>): (cs: seq<Chunk>)
    requires forall m :: m in ms ==> m.Chunk?
    ensures |cs| == |ms| && forall k :: 0 <= k < |cs| ==> cs[k] == Chunk(ms[k].index, ms[k].delta, ms[k].finish)
  {
    if ms == [] then []
    else
      var m := ms[|ms| - 1];
      Chunks(ms[..|ms| - 1]) + [Chunk(m.index, m.delta, m.finish)]
  }

  // The messages of a job that are all chunks, of which only the last finishes
  predicate Finishing(ms: seq<NodeJobQueues.Message>) {
    && 0 < |ms| <= INT_MAX && (forall m :: m in ms ==> m.Chunk?)
    && ms[|ms| - 1].finish && forall k :: 0 <= k < |ms| - 1 ==> !ms[k].finish
  }

  lemma FinishingIsWellSent(ms: seq<NodeJobQueues.Message>, stream: bool)
    requires Finishing(ms) && NodeJobQueues.InOrder(ms, stream)
    ensures WellSent(Chunks(ms))
  {
    forall k | 0 <= k < |ms| ensures Proper(Chunks(ms)[k]) && Chunks(ms)[k].index == k {
      assert ms[k] in ms;
    }
  }

  // Whatever schedule a node's queue and worker have run, the chunks of a job that finished are such
  // a stream.
  lemma WorkerIsWellSent(max: nat, actions: seq<NodeJobQueues.Action>, s: NodeJobQueues.State, no: nat)
    requires NodeJobQueues.Reached(NodeJobQueues.Start(max), actions, s) && no < |s.popped|
    requires Finishing(NodeJobQueues.MessagesOf(s.sent, no))
    ensures WellSent(Chunks(NodeJobQueues.MessagesOf(s.sent, no)))
  {
    var ms := NodeJobQueues.MessagesOf(s.sent, no);
    NodeJobQueues.RunKeeps(NodeJobQueues.Start(max), actions, s);
    assert NodeJobQueues.InOrder(ms, s.popped[no].stream);
    FinishingIsWellSent(ms, s.popped[no].stream);
  }

  // So its bodies, given to decode_stream as they are, make its text exactly when each delta is
  // faithful.
  lemma WorkerBodiesDecode(
      max: nat, actions: seq<NodeJobQueues.Action>, s: NodeJobQueues.State, no: nat,
      sent: seq<Chunk>, arrived: seq<string>)
    requires NodeJobQueues.Reached(NodeJobQueues.Start(max), actions, s) && no < |s.popped|
    requires Finishing(NodeJobQueues.MessagesOf(s.sent, no)) && sent == Chunks(NodeJobQueues.MessagesOf(s.sent, no))
    requires Arrived(sent, arrived)
    ensures
      Deliver(arrived + [Printed(Last(sent))], map[]) == Some((Finished, Deltas(sent), map[]))
      <==> forall k :: 0 <= k < |sent| ==> Faithful(sent[k].delta)
  {
    WorkerIsWellSent(max, actions, s, no);
    MessagesIff(sent, arrived);
  }
}
