/** The gateway's two chat completions: one that waits for the reply, and one that streams it. */
module Gateway {
  import opened Text
  import opened Sse

  // What the worker's stream yields
  datatype Item = Item(delta: string, finish: bool)

  // What the gateway encodes as JSON: the chunk with the role, one with text, the finishing one,
  // and an error
  datatype Payload = Role | Piece(text: string) | Finish | Error(message: string)

  // How a stream of items comes to its end: it just stops, or the manager's client raises an error.
  datatype Ending = Stops | Raises(message: string)

  // -------- what is streamed --------

  // The data of the events, in order
  function Pieces(items: seq<Item>, ending: Ending, encode: Payload -> string): seq<string> {
    if items == [] then
      match ending
      case Stops => []
      case Raises(message) => [encode(Error(message)), DONE]
    else
      (if items[0].delta == "" then [] else [encode(Piece(items[0].delta))])
      + if items[0].finish then [encode(Finish), DONE] else Pieces(items[1..], ending, encode)
  }

  // One event: sse() of a payload, or the final one
  function Event(data: string): string { "data: " + data + BLANK }

  function Joined(datas: seq<string>): string { if datas == [] then "" else Event(datas[0]) + Joined(datas[1..]) }

  function Produced(items: seq<Item>, ending: Ending, encode: Payload -> string): string {
    Joined([encode(Role)] + Pieces(items, ending, encode))
  }

  lemma {:induction false} ConcatPush(chunks: seq<string>, s: string)
    ensures Concat(chunks + [s]) == Concat(chunks) + s
  {
    if chunks == [] {
      assert [s][1..] == [] && chunks + [s] == [s];
    } else {
      assert (chunks + [s])[1..] == chunks[1..] + [s];
      ConcatPush(chunks[1..], s);
    }
  }

  // One more event goes out.
  lemma EventSent(sent: seq<string>, data: string, rest: seq<string>)
    ensures Concat(sent + [Event(data)]) + Joined(rest) == Concat(sent) + Joined([data] + rest)
  {
    ConcatPush(sent, Event(data));
    assert ([data] + rest)[1..] == rest;
    Associate(Concat(sent), Event(data), Joined(rest));
  }

  // stream_chat_completion: the texts that it yields
  method StreamChatCompletion(items: seq<Item>, ending: Ending, encode: Payload -> string) returns (sent: seq<string>)
    ensures Concat(sent) == Produced(items, ending, encode)
  {
    sent := [];
    ghost var whole := Produced(items, ending, encode);
    sent := Send(sent, encode(Role), Pieces(items, ending, encode));
    var i := 0;
    while i < |items|
      invariant 0 <= i <= |items|
      invariant Concat(sent) + Joined(Pieces(items[i..], ending, encode)) == whole
    {
      var finished;
      sent, finished := Yield(sent, items[i..], ending, encode);
      if finished {
        return;
      }
      i := i + 1;
    }
    assert items[i..] == [];
    if ending.Raises? {
      sent := SendLast(sent, encode(Error(ending.message)));
    }
  }

  method Send(sent: seq<string>, data: string, ghost rest: seq<string>) returns (sent': seq<string>)
    ensures Concat(sent') + Joined(rest) == Concat(sent) + Joined([data] + rest)
  {
    EventSent(sent, data, rest);
    sent' := sent + [Event(data)];
  }

  // The last payload of a stream, and the final mark
  method SendLast(sent: seq<string>, data: string) returns (sent': seq<string>)
    ensures Concat(sent') == Concat(sent) + Joined([data, DONE])
  {
    assert [data] + [DONE] == [data, DONE] && [DONE] + [] == [DONE];
    sent' := Send(sent, data, [DONE]);
    sent' := Send(sent', DONE, []);
    assert Concat(sent') + "" == Concat(sent');
  }

  // What is yielded for the first of some items
  method Yield(sent: seq<string>, items: seq<Item>, ending: Ending, encode: Payload -> string)
    returns (sent': seq<string>, finished: bool)
    requires items != []
    ensures finished == items[0].finish
    ensures Concat(sent') + (if finished then "" else Joined(Pieces(items[1..], ending, encode)))
      == Concat(sent) + Joined(Pieces(items, ending, encode))
  {
    var item := items[0];
    finished := item.finish;
    sent' := sent;
    ghost var rest := if finished then [encode(Finish), DONE] else Pieces(items[1..], ending, encode);
    if item.delta != "" {
      sent' := Send(sent', encode(Piece(item.delta)), rest);
    } else {
      assert [] + rest == rest;
    }
    if finished {
      sent' := SendLast(sent', encode(Finish));
      assert Concat(sent') + "" == Concat(sent');
    }
  }

  // -------- what is waited for --------

  function Reply(items: seq<Item>): string { if items == [] then "" else items[0].delta + Reply(items[1..]) }

  // run_chat_completion, when nothing is raised
  method RunChatCompletion(items: seq<Item>) returns (reply: string)
    ensures reply == Reply(items)
  {
    var chunks: seq<string> := [];
    var i := 0;
    while i < |items|
      invariant 0 <= i <= |items| && Concat(chunks) + Reply(items[i..]) == Reply(items)
    {
      assert items[i..][1..] == items[i + 1..];
      if items[i].delta != "" {
        ConcatPush(chunks, items[i].delta);
        chunks := chunks + [items[i].delta];
      }
      i := i + 1;
    }
    reply := Concat(chunks);
  }

  // -------- what the reader makes of the stream --------

  function Meaning(p: Payload): Parsed {
    match p
    case Role => Content("")
    case Piece(text) => Content(text)
    case Finish => Content("")
    case Error(message) => if message == "" then Content("") else Failure(message)
  }

  // The encoder writes one line that is not the final mark, and the parser reads back what it says.
  ghost predicate Codec(encode: Payload -> string, parse: string -> Parsed) {
    forall p {:trigger encode(p)} :: OneLine(encode(p)) && encode(p) != DONE && parse(encode(p)) == Meaning(p)
  }

  function EventTexts(datas: seq<string>): seq<string> {
    if datas == [] then [""] else ["data: " + datas[0]] + EventTexts(datas[1..])
  }

  lemma {:induction false} SplitJoined(datas: seq<string>)
    requires forall d :: d in datas ==> OneLine(d)
    ensures Split(Joined(datas)) == EventTexts(datas) && '\r' !in Joined(datas)
  {
    if datas != [] {
      assert datas[0] in datas && forall d :: d in datas[1..] ==> d in datas;
      SplitJoined(datas[1..]);
      SplitEvent(datas[0], Joined(datas[1..]));
    }
  }

  lemma SplitEvent(data: string, rest: string)
    requires OneLine(data) && '\r' !in rest
    ensures Split(Event(data) + rest) == ["data: " + data] + Split(rest) && '\r' !in Event(data) + rest
  {
    SplitFirst("data: " + data, rest);
    assert Event(data) + rest == ("data: " + data) + (BLANK + rest);
  }

  lemma SplitFirst(line: string, rest: string)
    requires OneLine(line) && '\r' !in rest
    ensures Split(line + (BLANK + rest)) == [line] + Split(rest) && '\r' !in line + (BLANK + rest)
  {
    OneLineIsUnbroken(line);
    SplitLine(line, rest);
  }

  function Deltas(items: seq<Item>): seq<string> {
    if items == [] then [] else (if items[0].delta == "" then [] else [items[0].delta]) + Deltas(items[1..])
  }

  // The items up to the finishing one, after which neither side reads on
  function UpToFinish(items: seq<Item>): seq<Item> {
    if items == [] then [] else [items[0]] + if items[0].finish then [] else UpToFinish(items[1..])
  }

  predicate Finishes(items: seq<Item>) { exists i :: 0 <= i < |items| && items[i].finish }

  // How a stream ends: with the finishing chunk, with an error, or just so
  function EndOf(items: seq<Item>, ending: Ending): seq<Payload> {
    if Finishes(items) then [Finish] else if ending.Raises? then [Error(ending.message)] else []
  }

  function Encoded(ps: seq<Payload>, encode: Payload -> string): seq<string> {
    if ps == [] then [] else [encode(ps[0])] + Encoded(ps[1..], encode)
  }

  function PiecesOf(deltas: seq<string>): seq<Payload> {
    if deltas == [] then [] else [Piece(deltas[0])] + PiecesOf(deltas[1..])
  }

  // What is streamed, all in all: each text that is not empty, up to the finishing item, and then the end;
  // and the final mark if and only if there is one.
  lemma {:induction false} PiecesAre(items: seq<Item>, ending: Ending, encode: Payload -> string)
    ensures Pieces(items, ending, encode) ==
      Encoded(PiecesOf(Deltas(UpToFinish(items))), encode) + Closing(items, ending, encode)
    decreases items
  {
    if items != [] {
      if !items[0].finish {
        PiecesAre(items[1..], ending, encode);
        FinishesNext(items);
      }
      PiecesNext(items, ending, encode);
    } else if ending.Raises? {
      EncodedOne(Error(ending.message), encode);
    }
  }

  // So the stream is, event by event: the role, the texts, and the closing.
  lemma ProducedIs(items: seq<Item>, ending: Ending, encode: Payload -> string)
    ensures Produced(items, ending, encode) ==
      Event(encode(Role))
      + Joined(Encoded(PiecesOf(Deltas(UpToFinish(items))), encode) + Closing(items, ending, encode))
  {
    PiecesAre(items, ending, encode);
    var pieces := Pieces(items, ending, encode);
    assert ([encode(Role)] + pieces)[1..] == pieces;
  }

  // What is streamed behind the texts
  function Closing(items: seq<Item>, ending: Ending, encode: Payload -> string): seq<string> {
    var end := EndOf(items, ending);
    Encoded(end, encode) + if end == [] then [] else [DONE]
  }

  lemma PiecesNext(items: seq<Item>, ending: Ending, encode: Payload -> string)
    requires items != []
    requires !items[0].finish ==> EndOf(items[1..], ending) == EndOf(items, ending)
    requires items[0].finish || Pieces(items[1..], ending, encode) ==
      Encoded(PiecesOf(Deltas(UpToFinish(items[1..]))), encode) + Closing(items, ending, encode)
    ensures Pieces(items, ending, encode) ==
      Encoded(PiecesOf(Deltas(UpToFinish(items))), encode) + Closing(items, ending, encode)
  {
    var d, rest := items[0].delta, if items[0].finish then [] else UpToFinish(items[1..]);
    DeltasNext(items);
    PutFirst(d, Deltas(rest), encode);
    if items[0].finish {
      ClosingFinish(items, ending, encode);
    }
    PutBehind(if d == "" then [] else [encode(Piece(d))], Encoded(PiecesOf(Deltas(rest)), encode),
              Closing(items, ending, encode));
  }

  lemma PutBehind(a: seq<string>, b: seq<string>, c: seq<string>)
    ensures a + (b + c) == (a + b) + c
  {
  }

  lemma DeltasNext(items: seq<Item>)
    requires items != []
    ensures
      var d, rest := items[0].delta, if items[0].finish then [] else UpToFinish(items[1..]);
      Deltas(UpToFinish(items)) == (if d == "" then [] else [d]) + Deltas(rest)
  {
    var rest := if items[0].finish then [] else UpToFinish(items[1..]);
    assert UpToFinish(items)[1..] == rest && UpToFinish(items)[0] == items[0];
  }

  lemma ClosingFinish(items: seq<Item>, ending: Ending, encode: Payload -> string)
    requires items != [] && items[0].finish
    ensures Closing(items, ending, encode) == [encode(Finish), DONE]
    ensures Encoded(PiecesOf(Deltas([])), encode) + [encode(Finish), DONE] == [encode(Finish), DONE]
  {
    EncodedOne(Finish, encode);
    assert [encode(Finish)] + [DONE] == [encode(Finish), DONE];
  }

  lemma EncodedOne(p: Payload, encode: Payload -> string)
    ensures Encoded([p], encode) == [encode(p)]
  {
    assert [p][1..] == [];
  }

  lemma FinishesNext(items: seq<Item>)
    requires items != [] && !items[0].finish
    ensures Finishes(items) <==> Finishes(items[1..])
  {
    if Finishes(items[1..]) {
      var i :| 0 <= i < |items[1..]| && items[1..][i].finish;
      assert items[i + 1].finish;
    }
    if i :| 0 <= i < |items| && items[i].finish {
      assert items[1..][i - 1].finish;
    }
  }

  lemma PutFirst(d: string, rest: seq<string>, encode: Payload -> string)
    ensures
      Encoded(PiecesOf((if d == "" then [] else [d]) + rest), encode) ==
        (if d == "" then [] else [encode(Piece(d))]) + Encoded(PiecesOf(rest), encode)
  {
    if d == "" {
      assert [] + rest == rest;
    } else {
      var all := [d] + rest;
      assert all[1..] == rest && PiecesOf(all)[1..] == PiecesOf(rest);
    }
  }

  // What is thrown in the end, if no item finishes
  function Thrown(items: seq<Item>, ending: Ending): Option<Parsed> {
    if Finishes(items) || ending.Stops? || ending.message == "" then None else Some(Failure(ending.message))
  }

  function Gather(r: Reading, items: seq<Item>, ending: Ending): Reading {
    Reading(r.content + Reply(UpToFinish(items)), r.deltas + Deltas(UpToFinish(items)), Thrown(items, ending))
  }

  lemma DispatchOne(r: Reading, datas: seq<string>, parse: string -> Parsed)
    requires datas != [] && OneLine(datas[0])
    ensures
      DispatchAll(r, EventTexts(datas), parse)
      == DispatchAll(if r.thrown.Some? || datas[0] == DONE then r else
                       match parse(datas[0])
                       case Content(delta) =>
                         if delta == "" then r else r.(content := r.content + delta, deltas := r.deltas + [delta])
                       case bad => r.(thrown := Some(bad)),
                     EventTexts(datas[1..]), parse)
  {
    ParseOfEvent(datas[0]);
    assert EventTexts(datas)[1..] == EventTexts(datas[1..]);
  }

  lemma DispatchNone(r: Reading, parse: string -> Parsed)
    ensures DispatchAll(r, EventTexts([]), parse) == r
  {
    ParseOfNothing();
    var nothing: seq<string> := [""];
    assert nothing[1..] == [];
  }

  // The data that end a stream
  lemma DispatchEnd(r: Reading, p: Payload, encode: Payload -> string, parse: string -> Parsed)
    requires Codec(encode, parse) && r.thrown.None? && (p == Finish || p.Error?)
    ensures
      DispatchAll(r, EventTexts([encode(p), DONE]), parse)
      == if p.Error? && p.message != "" then r.(thrown := Some(Failure(p.message))) else r
  {
    var datas := [encode(p), DONE];
    assert datas[1..] == [DONE] && [DONE][1..] == [];
    assert parse(encode(p)) == Meaning(p);
    DispatchOne(r, datas, parse);
    var r' := if p.Error? && p.message != "" then r.(thrown := Some(Failure(p.message))) else r;
    DispatchOne(r', [DONE], parse);
    DispatchNone(r', parse);
  }

  lemma {:induction false} DispatchPieces(
      r: Reading, items: seq<Item>, ending: Ending, encode: Payload -> string, parse: string -> Parsed)
    requires Codec(encode, parse) && r.thrown.None?
    ensures DispatchAll(r, EventTexts(Pieces(items, ending, encode)), parse) == Gather(r, items, ending)
    decreases items
  {
    if items == [] {
      assert r.content + "" == r.content && r.deltas + [] == r.deltas;
      match ending {
        case Stops => DispatchNone(r, parse);
        case Raises(message) => DispatchEnd(r, Error(message), encode, parse);
      }
    } else {
      var item := items[0];
      var rest := if item.finish then [encode(Finish), DONE] else Pieces(items[1..], ending, encode);
      var r' :=
        if item.delta == "" then r else r.(content := r.content + item.delta, deltas := r.deltas + [item.delta]);
      if item.delta == "" {
        assert Pieces(items, ending, encode) == rest;
      } else {
        var datas := Pieces(items, ending, encode);
        assert datas == [encode(Piece(item.delta))] + rest && datas[1..] == rest;
        assert parse(encode(Piece(item.delta))) == Meaning(Piece(item.delta));
        DispatchOne(r, datas, parse);
      }
      if item.finish {
        DispatchEnd(r', Finish, encode, parse);
      } else {
        DispatchPieces(r', items[1..], ending, encode, parse);
      }
      GatherOne(r, r', items, ending);
    }
  }

  lemma GatherOne(r: Reading, r': Reading, items: seq<Item>, ending: Ending)
    requires items != [] && r.thrown.None? && r'.thrown.None?
    requires var d := items[0].delta;
      r' == if d == "" then r else r.(content := r.content + d, deltas := r.deltas + [d])
    ensures Gather(r, items, ending) == if items[0].finish then r' else Gather(r', items[1..], ending)
  {
    var rest := if items[0].finish then [] else UpToFinish(items[1..]);
    assert UpToFinish(items) == [items[0]] + rest;
    GatherItem(r, r', items[0], rest);
    if items[0].finish {
      assert r'.content + "" == r'.content && r'.deltas + [] == r'.deltas;
    } else {
      FinishesLater(items);
    }
  }

  lemma GatherItem(r: Reading, r': Reading, item: Item, rest: seq<Item>)
    requires var d := item.delta; r' == if d == "" then r else r.(content := r.content + d, deltas := r.deltas + [d])
    ensures r.content + Reply([item] + rest) == r'.content + Reply(rest)
    ensures r.deltas + Deltas([item] + rest) == r'.deltas + Deltas(rest)
  {
    assert ([item] + rest)[1..] == rest;
    Associate(r.content, item.delta, Reply(rest));
    assert r.content + "" == r.content;
    var ds := if item.delta == "" then [] else [item.delta];
    assert (r.deltas + ds) + Deltas(rest) == r.deltas + (ds + Deltas(rest));
    assert r.deltas + [] == r.deltas;
  }

  lemma FinishesLater(items: seq<Item>)
    requires items != [] && !items[0].finish
    ensures Finishes(items) == Finishes(items[1..])
  {
    if i :| 0 <= i < |items| && items[i].finish {
      assert items[1..][i - 1].finish;
    }
    if i :| 0 <= i < |items[1..]| && items[1..][i].finish {
      assert items[i + 1].finish;
    }
  }

  // Main result: however the network cuts the stream, the reader's content is the reply that the
  // other completion returns for the same items, it has seen every delta that is not empty, in
  // order, and it throws exactly when the gateway sent an error.
  lemma StreamIsReply(
      items: seq<Item>, ending: Ending, encode: Payload -> string, parse: string -> Parsed, chunks: seq<string>)
    requires Codec(encode, parse) && Concat(chunks) == Produced(items, ending, encode)
    ensures
      DispatchAll(START, Sse.Events("", chunks), parse)
      == Reading(Reply(UpToFinish(items)), Deltas(UpToFinish(items)), Thrown(items, ending))
    ensures (forall i :: 0 <= i < |items| - 1 ==> !items[i].finish) ==> UpToFinish(items) == items
  {
    if forall i :: 0 <= i < |items| - 1 ==> !items[i].finish { UpToLast(items); }
    var pieces := Pieces(items, ending, encode);
    var datas := [encode(Role)] + pieces;
    PiecesAreLines(items, ending, encode, parse);
    SplitJoined(datas);
    var text := Joined(datas);
    NormalizeNothing(text);
    assert "" + Concat(chunks) == text;
    AnyChunking("", chunks);
    assert parse(encode(Role)) == Meaning(Role);
    DispatchOne(START, datas, parse);
    assert datas[1..] == pieces;
    DispatchPieces(START, items, ending, encode, parse);
    assert "" + Reply(UpToFinish(items)) == Reply(UpToFinish(items));
    assert [] + Deltas(UpToFinish(items)) == Deltas(UpToFinish(items));
  }

  // The client ends its stream with the finishing item, so that no item is beyond it.
  lemma {:induction false} UpToLast(items: seq<Item>)
    requires forall i :: 0 <= i < |items| - 1 ==> !items[i].finish
    ensures UpToFinish(items) == items
  {
    if |items| > 1 {
      assert forall i :: 0 <= i < |items[1..]| ==> items[1..][i] == items[i + 1];
      UpToLast(items[1..]);
      assert items == [items[0]] + items[1..];
    }
  }

  lemma {:induction false} PiecesAreLines(
      items: seq<Item>, ending: Ending, encode: Payload -> string, parse: string -> Parsed)
    requires Codec(encode, parse)
    ensures forall d :: d in Pieces(items, ending, encode) ==> OneLine(d)
  {
    if items != [] {
      PiecesAreLines(items[1..], ending, encode, parse);
    }
  }
}
