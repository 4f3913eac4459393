/** An encoder and a parser in the manner of JSON, which meet what the gateway's results ask of them. */
module Codecs {
  import opened Sse
  import opened Gateway
  import StreamMessages

  const CONTENT := "{\"content\":\""
  const ERROR := "{\"error\":\""
  const END := "\"}"

  function Encode(p: Payload): string {
    match p
    case Role => "{\"role\":\"assistant\"}"
    case Piece(text) => CONTENT + StreamMessages.Escape(text) + END
    case Finish => "{\"finish_reason\":\"stop\"}"
    case Error(message) => ERROR + StreamMessages.Escape(message) + END
  }

  function HexValue(c: char): int { if '0' <= c <= '9' then c as int - '0' as int else c as int - 'a' as int + 10 }

  function Control(high: char, low: char): char {
    var n := 16 * HexValue(high) + HexValue(low);
    if 0 <= n < 0x20 then n as char else '\0'
  }

  // Reading printed text back
  function Unescape(s: string): string {
    if s == "" then ""
    else if s[0] != '\\' || |s| == 1 then [s[0]] + Unescape(s[1..])
    else
      match s[1]
      case 'b' => "\U{0008}" + Unescape(s[2..])
      case 't' => "\t" + Unescape(s[2..])
      case 'n' => "\n" + Unescape(s[2..])
      case 'f' => "\U{000C}" + Unescape(s[2..])
      case 'r' => "\r" + Unescape(s[2..])
      case 'u' => if |s| < 6 then "" else [Control(s[4], s[5])] + Unescape(s[6..])
      case c => [c] + Unescape(s[2..])
  }

  // What is between the quotes of a payload that starts so
  function Quoted(data: string, start: string): string
    requires start <= data
  {
    if |data| < |start| + |END| then "" else Unescape(data[|start|..|data| - |END|])
  }

  function Parse(data: string): Parsed {
    if CONTENT <= data then Content(Quoted(data, CONTENT))
    else if ERROR <= data then
      var message := Quoted(data, ERROR);
      if message == "" then Content("") else Failure(message)
    else Content("")
  }

  lemma UnescapeChar(c: char, rest: string)
    ensures Unescape(StreamMessages.EscapeChar(c) + rest) == [c] + Unescape(rest)
  {
    var e := StreamMessages.EscapeChar(c);
    if e[0] != '\\' {
      assert (e + rest)[1..] == rest;
    } else if |e| == 2 {
      assert (e + rest)[2..] == rest;
    } else {
      UnescapeControl(c, rest);
    }
  }

  lemma UnescapeControl(c: char, rest: string)
    requires |StreamMessages.EscapeChar(c)| > 2
    ensures Unescape(StreamMessages.EscapeChar(c) + rest) == [c] + Unescape(rest)
  {
    var e, n := StreamMessages.EscapeChar(c), c as int;
    var high, low := StreamMessages.HexDigit(n / 16), StreamMessages.HexDigit(n % 16);
    assert e == "\\u00" + [high, low] && e[4] == high && e[5] == low;
    assert HexValue(high) == n / 16 && HexValue(low) == n % 16;
    assert (e + rest)[6..] == rest && (e + rest)[4] == high && (e + rest)[5] == low;
  }

  lemma {:induction false} UnescapeEscape(s: string)
    ensures Unescape(StreamMessages.Escape(s)) == s
  {
    if s != "" {
      UnescapeEscape(s[1..]);
      UnescapeChar(s[0], StreamMessages.Escape(s[1..]));
      assert s == [s[0]] + s[1..];
    }
  }

  // Printed text has no line end in it.
  lemma {:induction false} EscapeIsOneLine(s: string)
    ensures '\n' !in StreamMessages.Escape(s) && '\r' !in StreamMessages.Escape(s)
  {
    if s != "" {
      EscapeIsOneLine(s[1..]);
      EscapeCharIsOneLine(s[0]);
    }
  }

  lemma EscapeCharIsOneLine(c: char)
    ensures '\n' !in StreamMessages.EscapeChar(c) && '\r' !in StreamMessages.EscapeChar(c)
  {
  }

  lemma QuotedBack(start: string, text: string)
    ensures Quoted(start + StreamMessages.Escape(text) + END, start) == text
  {
    var e := StreamMessages.Escape(text);
    var data := start + e + END;
    assert data[|start|..|data| - |END|] == e;
    UnescapeEscape(text);
  }

  lemma QuotedIsOneLine(start: string, text: string)
    requires start != "" && start[0] == '{' && '\n' !in start && '\r' !in start
    ensures var data := start + StreamMessages.Escape(text) + END; OneLine(data) && data != DONE
  {
    EscapeIsOneLine(text);
    var data := start + StreamMessages.Escape(text) + END;
    assert data[0] == '{' && data[|data| - 1] == '}';
  }

  lemma Starts(start: string, text: string)
    ensures start <= start + StreamMessages.Escape(text) + END
  {
  }

  predicate Means(p: Payload) { OneLine(Encode(p)) && Encode(p) != DONE && Parse(Encode(p)) == Meaning(p) }

  lemma PieceMeans(text: string)
    ensures Means(Piece(text))
  {
    QuotedIsOneLine(CONTENT, text);
    QuotedBack(CONTENT, text);
    Starts(CONTENT, text);
  }

  lemma ErrorMeans(message: string)
    ensures Means(Error(message))
  {
    QuotedIsOneLine(ERROR, message);
    QuotedBack(ERROR, message);
    Starts(ERROR, message);
    assert Encode(Error(message))[2] == 'e' && CONTENT[2] == 'c';
  }

  lemma RoleMeans()
    ensures Means(Role)
  {
    assert Encode(Role)[2] == 'r' && CONTENT[2] == 'c' && ERROR[2] == 'e';
  }

  lemma FinishMeans()
    ensures Means(Finish)
  {
    assert Encode(Finish)[2] == 'f' && CONTENT[2] == 'c' && ERROR[2] == 'e';
  }

  // So the gateway's results are not about nothing.
  lemma EncodeAndParse()
    ensures Codec(Encode, Parse)
  {
    forall p: Payload ensures OneLine(Encode(p)) && Encode(p) != DONE && Parse(Encode(p)) == Meaning(p) {
      AllMean(p);
    }
  }

  lemma AllMean(p: Payload)
    ensures Means(p)
  {
    match p
    case Role => RoleMeans();
    case Piece(text) => PieceMeans(text);
    case Finish => FinishMeans();
    case Error(message) => ErrorMeans(message);
  }
}
