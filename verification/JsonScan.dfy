/** The scanner that picks a value out of a message by its key, and the message splice before it. */
module JsonScan {
  import opened Text

  // -------- finding a text --------

  predicate At(s: string, t: string, i: int) {
    0 <= i && i + |t| <= |s| && forall k {:trigger t[k]} :: 0 <= k < |t| ==> s[i + k] == t[k]
  }

  // std::string::find; -1 when there is none
  function FindText(s: string, t: string): (r: int)
    ensures r == -1 || 0 <= r <= |s| - |t|
  {
    if t <= s then 0
    else if s == "" then -1
    else
      var r := FindText(s[1..], t);
      if r < 0 then -1 else r + 1
  }

  // It is the first place, and there is none exactly when it says so.
  lemma {:induction false} FindTextFinds(s: string, t: string)
    ensures FindText(s, t) >= 0 ==> At(s, t, FindText(s, t))
    ensures forall j :: At(s, t, j) ==> 0 <= FindText(s, t) <= j
  {
    if !(t <= s) && s != "" {
      FindTextFinds(s[1..], t);
      assert FindText(s, t) >= 0 ==> At(s, t, FindText(s, t)) by {
        if FindText(s, t) >= 0 {
          AtShift(s, 1, t, FindText(s, t) - 1);
        }
      }
      forall j | At(s, t, j) ensures 0 <= FindText(s, t) <= j {
        if j == 0 {
          AtStart(s, t);
        } else {
          AtShift(s, 1, t, j - 1);
        }
      }
    }
  }

  lemma AtStart(s: string, t: string)
    requires At(s, t, 0)
    ensures t <= s
  {
    assert forall k {:trigger t[k]} :: 0 <= k < |t| ==> s[0 + k] == t[k];
  }

  lemma AtShift(s: string, n: nat, t: string, j: int)
    requires n <= |s| && j >= 0
    ensures At(s, t, n + j) <==> At(s[n..], t, j)
  {
    if n + j + |t| <= |s| {
      assert forall k {:trigger t[k]} :: 0 <= k < |t| ==> s[n + j + k] == s[n..][j + k];
    }
  }

  lemma FindShift(s: string, n: nat, t: string)
    requires n <= |s| && forall i :: 0 <= i < n ==> !At(s, t, i)
    ensures FindText(s, t) == if FindText(s[n..], t) < 0 then -1 else n + FindText(s[n..], t)
  {
    var r, q := FindText(s[n..], t), FindText(s, t);
    FindTextFinds(s, t);
    FindTextFinds(s[n..], t);
    if r >= 0 {
      AtShift(s, n, t, r);
    }
    if q >= 0 {
      AtShift(s, n, t, q - n);
    }
  }

  // -------- the scanner, as functions --------

  datatype Status = Before | Object | Quoted | Over

  datatype Scanner = Scanner(status: Status, last: char, objFlag: int, val: string)

  // One character, in each status
  function Feed(st: Scanner, c: char): Scanner {
    match st.status
    case Before =>
      if c == '"' then st.(status := Quoted, last := c)
      else if c == '{' then st.(status := Object, last := c, objFlag := 1, val := st.val + [c])
      else if c == ':' then st.(last := c, objFlag := 1)
      else if c == ',' || c == '}' then st.(status := Over, last := c, objFlag := 0)
      else if c == ' ' || st.objFlag == 0 then st.(last := c)
      else st.(last := c, val := st.val + [c])
    case Object =>
      (var depth := st.objFlag + Weight(c);
       st.(status := if depth == 0 then Over else Object, last := c, objFlag := depth, val := st.val + [c]))
    case Quoted =>
      if c == '"' && st.last != '\\' then st.(status := Over, last := c, objFlag := 0)
      else st.(last := c, val := st.val + [c])
    case Over => st.(last := c)
  }

  function Weight(c: char): int { if c == '{' then 1 else if c == '}' then -1 else 0 }

  function FeedAll(st: Scanner, s: string): Scanner
    decreases s
  {
    if s == "" then st else FeedAll(Feed(st, s[0]), s[1..])
  }

  const FRESH := Scanner(Before, '\0', 0, "")

  function Kept(st: Scanner): string { if st.objFlag != 0 then "" else st.val }

  // What is made of the text behind the key
  function ScanValue(rest: string): string { Kept(FeedAll(FRESH, rest)) }

  function QuotedKey(key: string): string { "\"" + key + "\"" }

  // The text behind the first q; None when there is no q
  function Behind(json: string, q: string): Option<string> {
    After(json, FindText(json, q), |q|)
  }

  // What follows a text of this length at i, if it was found at all
  function After(s: string, i: int, length: nat): Option<string>
    requires i < 0 || i + length <= |s|
  {
    if i < 0 then None else Some(s[i + length..])
  }

  function Scan(json: string, key: string): string {
    match Behind(json, QuotedKey(key))
    case None => ""
    case Some(rest) => ScanValue(rest)
  }

  // -------- what it finds --------

  lemma {:induction false} FeedConcat(st: Scanner, a: string, b: string)
    ensures FeedAll(st, a + b) == FeedAll(FeedAll(st, a), b)
    decreases a
  {
    if a == "" {
      assert a + b == b;
    } else {
      assert (a + b)[1..] == a[1..] + b;
      FeedConcat(Feed(st, a[0]), a[1..], b);
    }
  }

  lemma {:induction false} FeedOver(st: Scanner, s: string)
    requires st.status == Over
    ensures FeedAll(st, s).objFlag == st.objFlag && FeedAll(st, s).val == st.val
    decreases s
  {
    if s != "" {
      FeedOver(Feed(st, s[0]), s[1..]);
    }
  }

  // What may stand between a key and its value
  predicate Gap(s: string) { forall i :: 0 <= i < |s| ==> s[i] == ' ' || s[i] == ':' }

  lemma {:induction false} FeedGap(st: Scanner, gap: string)
    requires Gap(gap) && st.status == Before
    ensures
      var st' := FeedAll(st, gap);
      st'.status == Before && st'.val == st.val && st'.objFlag == if ':' in gap then 1 else st.objFlag
    decreases gap
  {
    if gap != "" {
      FeedGap(Feed(st, gap[0]), gap[1..]);
      assert gap == [gap[0]] + gap[1..];
    }
  }

  function Depth(s: string): int {
    if s == "" then 0 else Depth(s[..|s| - 1]) + Weight(s[|s| - 1])
  }

  // n is where the braces of v first balance.
  predicate Closes(v: string, n: int) {
    0 < n <= |v| && Depth(v[..n]) == 0 && forall k :: 0 < k < n ==> Depth(v[..k]) != 0
  }

  lemma {:induction false} FeedObject(st: Scanner, v: string, n: nat)
    requires 0 < n <= |v| && v[0] == '{' && st.status == Before && st.val == ""
    requires forall k :: 0 < k < n ==> Depth(v[..k]) != 0
    ensures
      var st' := FeedAll(st, v[..n]);
      st'.val == v[..n] && st'.objFlag == Depth(v[..n]) && st'.status == if Depth(v[..n]) == 0 then Over else Object
  {
    FeedNext(st, v, n);
    if n == 1 {
      assert v[..0] == "" && v[..1] == "{";
    } else {
      FeedObject(st, v, n - 1);
    }
  }

  lemma FeedNext(st: Scanner, v: string, n: nat)
    requires 0 < n <= |v|
    ensures FeedAll(st, v[..n]) == Feed(FeedAll(st, v[..n - 1]), v[n - 1])
    ensures v[..n] == v[..n - 1] + [v[n - 1]] && Depth(v[..n]) == Depth(v[..n - 1]) + Weight(v[n - 1])
  {
    assert v[..n] == v[..n - 1] + [v[n - 1]] && v[..n][..n - 1] == v[..n - 1];
    FeedConcat(st, v[..n - 1], [v[n - 1]]);
    assert [v[n - 1]][1..] == "";
  }

  // Main result: a value that starts with a brace is read up to where its braces first balance,
  // wherever these stand, and is lost altogether when they never do.
  lemma ScanObject(gap: string, v: string)
    requires Gap(gap) && v != "" && v[0] == '{'
    ensures forall n :: Closes(v, n) ==> ScanValue(gap + v) == v[..n]
    ensures (forall n :: !Closes(v, n)) ==> ScanValue(gap + v) == ""
  {
    var st := FeedAll(FRESH, gap);
    FeedGap(FRESH, gap);
    FeedConcat(FRESH, gap, v);
    forall n | Closes(v, n) ensures ScanValue(gap + v) == v[..n] {
      FeedObject(st, v, n);
      assert v == v[..n] + v[n..];
      FeedConcat(st, v[..n], v[n..]);
      FeedOver(FeedAll(st, v[..n]), v[n..]);
    }
    if forall n :: !Closes(v, n) {
      NeverCloses(v, |v|);
      FeedObject(st, v, |v|);
      assert v[..|v|] == v;
    }
  }

  lemma {:induction false} NeverCloses(v: string, n: nat)
    requires n <= |v| && forall k :: !Closes(v, k)
    ensures forall k :: 0 < k <= n ==> Depth(v[..k]) != 0
  {
    if n > 0 {
      NeverCloses(v, n - 1);
      assert !Closes(v, n);
    }
  }

  // The first quote of v that no backslash stands before
  predicate Ends(v: string, e: int) {
    0 <= e < |v| && v[e] == '"' && !Escaped(v, e) && forall k :: 0 <= k < e && v[k] == '"' ==> Escaped(v, k)
  }

  predicate Escaped(v: string, k: int)
    requires 0 <= k < |v|
  {
    k > 0 && v[k - 1] == '\\'
  }

  lemma {:induction false} FeedQuoted(st: Scanner, v: string, n: nat)
    requires n <= |v| && st.status == Quoted && st.last != '\\'
    requires forall k :: 0 <= k < n && v[k] == '"' ==> Escaped(v, k)
    ensures FeedAll(st, v[..n]) == st.(last := if n == 0 then st.last else v[n - 1], val := st.val + v[..n])
  {
    if n == 0 {
      assert v[..0] == "" && st.val + "" == st.val;
    } else {
      assert v[..n] == v[..n - 1] + [v[n - 1]];
      FeedConcat(st, v[..n - 1], [v[n - 1]]);
      FeedQuoted(st, v, n - 1);
      var t := FeedAll(st, v[..n - 1]);
      assert [v[n - 1]][1..] == "" && FeedAll(t, [v[n - 1]]) == Feed(t, v[n - 1]);
      assert st.val + v[..n - 1] + [v[n - 1]] == st.val + v[..n];
    }
  }

  // Main result: a quoted value is read up to its first quote that is not escaped; one that is not
  // terminated is lost, provided that there was a colon.
  lemma ScanQuoted(gap: string, v: string)
    requires Gap(gap)
    ensures forall e :: Ends(v, e) ==> ScanValue(gap + "\"" + v) == v[..e]
    ensures (forall e :: !Ends(v, e)) ==> ScanValue(gap + "\"" + v) == if ':' in gap then "" else v
  {
    var q := Feed(FeedAll(FRESH, gap), '"');
    FeedOpened(gap, v);
    forall e | Ends(v, e) ensures ScanValue(gap + "\"" + v) == v[..e] {
      QuotedEnds(q, v, e);
    }
    if forall e :: !Ends(v, e) {
      NeverEnds(v, |v|);
      FeedQuoted(q, v, |v|);
      assert v[..|v|] == v;
    }
  }

  lemma FeedOpened(gap: string, v: string)
    requires Gap(gap)
    ensures
      var q := Feed(FeedAll(FRESH, gap), '"');
      && FeedAll(FRESH, gap + "\"" + v) == FeedAll(q, v)
      && q == Scanner(Quoted, '"', if ':' in gap then 1 else 0, "")
  {
    FeedGap(FRESH, gap);
    assert gap + "\"" + v == gap + ("\"" + v) && ("\"" + v)[1..] == v;
    FeedConcat(FRESH, gap, "\"" + v);
  }

  lemma QuotedEnds(q: Scanner, v: string, e: int)
    requires q.status == Quoted && q.last != '\\' && q.val == "" && Ends(v, e)
    ensures Kept(FeedAll(q, v)) == v[..e]
  {
    FeedQuoted(q, v, e);
    assert v == v[..e] + v[e..];
    FeedConcat(q, v[..e], v[e..]);
    FeedOver(Feed(FeedAll(q, v[..e]), '"'), v[e..][1..]);
  }

  lemma {:induction false} NeverEnds(v: string, n: nat)
    requires n <= |v| && forall e :: !Ends(v, e)
    ensures forall k :: 0 <= k < n && v[k] == '"' ==> Escaped(v, k)
  {
    if n > 0 {
      NeverEnds(v, n - 1);
      assert !Ends(v, n - 1);
    }
  }

  predicate Bare(s: string) { forall c :: c in s ==> c !in "\"{:,} " }

  lemma {:induction false} FeedBare(st: Scanner, s: string)
    requires Bare(s) && st.status == Before && st.objFlag != 0
    ensures FeedAll(st, s).(last := st.last) == st.(val := st.val + s)
    decreases s
  {
    if s == "" {
      assert st.val + s == st.val;
    } else {
      assert s[0] in s && forall c :: c in s[1..] ==> c in s;
      FeedBare(Feed(st, s[0]), s[1..]);
      assert st.val + [s[0]] + s[1..] == st.val + s;
    }
  }

  // Main result: a number or another bare word is read up to the comma or brace behind it.
  lemma ScanBare(gap: string, word: string, stop: char, rest: string)
    requires Gap(gap) && ':' in gap && Bare(word) && (stop == ',' || stop == '}')
    ensures ScanValue(gap + word + [stop] + rest) == word
    ensures ScanValue(gap + word) == ""
  {
    var st := FeedAll(FRESH, gap);
    FeedGap(FRESH, gap);
    FeedConcat(FRESH, gap, word);
    FeedBare(st, word);
    var t := FeedAll(st, word);
    assert "" + word == word;
    FeedConcat(FRESH, gap + word, [stop] + rest);
    assert ([stop] + rest)[1..] == rest && gap + word + [stop] + rest == gap + word + ([stop] + rest);
    FeedOver(Feed(t, stop), rest);
  }

  // What of some text is kept behind a colon
  function Squeeze(s: string): string {
    if s == "" then "" else (if s[0] == ' ' || s[0] == ':' then "" else [s[0]]) + Squeeze(s[1..])
  }

  lemma {:induction false} FeedLoose(st: Scanner, s: string)
    requires (forall i :: 0 <= i < |s| ==> s[i] !in "\"{,}") && st.status == Before && st.objFlag == 1
    ensures
      var st' := FeedAll(st, s);
      st'.status == Before && st'.objFlag == 1 && st'.val == st.val + Squeeze(s)
    decreases s
  {
    if s == "" {
      assert st.val + "" == st.val;
    } else {
      assert s[0] !in "\"{,}";
      var c := if s[0] == ' ' || s[0] == ':' then "" else [s[0]];
      assert forall d: char :: d !in "\"{,}" ==> d != '"' && d != '{' && d != ',' && d != '}' by {
        assert "\"{,}"[0] == '"' && "\"{,}"[1] == '{' && "\"{,}"[2] == ',' && "\"{,}"[3] == '}';
      }
      FeedLoose(Feed(st, s[0]), s[1..]);
      assert Feed(st, s[0]).val == st.val + c;
      assert (st.val + c) + Squeeze(s[1..]) == st.val + (c + Squeeze(s[1..]));
    }
  }

  // Whatever stands behind the colon without a quote or a brace is read up to the comma or brace behind
  // it, but for its spaces and further colons.
  lemma ScanLoose(gap: string, s: string, stop: char, rest: string)
    requires Gap(gap) && ':' in gap && (forall i :: 0 <= i < |s| ==> s[i] !in "\"{,}") && (stop == ',' || stop == '}')
    ensures ScanValue(gap + (s + ([stop] + rest))) == Squeeze(s)
  {
    var st := FeedAll(FRESH, gap);
    FeedGap(FRESH, gap);
    FeedConcat(FRESH, gap, s + ([stop] + rest));
    FeedConcat(st, s, [stop] + rest);
    FeedLoose(st, s);
    assert ([stop] + rest)[1..] == rest && "" + Squeeze(s) == Squeeze(s);
    FeedOver(Feed(FeedAll(st, s), stop), rest);
  }

  // sample_json_str_get
  method SampleJsonStrGet(json: string, key: string) returns (keyVal: string)
    ensures keyVal == Scan(json, key)
  {
    keyVal := "";
    var findKey := "\"" + key + "\"";
    var start := FindText(json, findKey);
    if start == -1 {
      return;
    }
    var text := json[start + |findKey|..];
    var status, lastC, objFlag, i := Before, '\0', 0, 0;
    while i < |text|
      invariant 0 <= i <= |text|
      invariant FeedAll(Scanner(status, lastC, objFlag, keyVal), text[i..]) == FeedAll(FRESH, text)
    {
      var c := text[i];
      match status {
        case Before =>
          if c == '"' {
            status := Quoted;
          } else if c == '{' {
            keyVal := keyVal + [c];
            objFlag := 1;
            status := Object;
          } else if c == ':' {
            objFlag := 1;
          } else if c == ',' || c == '}' {
            objFlag := 0;
            status := Over;
          } else if c != ' ' && objFlag != 0 {
            keyVal := keyVal + [c];
          }
        case Object =>
          keyVal := keyVal + [c];
          if c == '{' {
            objFlag := objFlag + 1;
          }
          if c == '}' {
            objFlag := objFlag - 1;
          }
          if objFlag == 0 {
            status := Over;
          }
        case Quoted =>
          if c == '"' && lastC != '\\' {
            objFlag := 0;
            status := Over;
          } else {
            keyVal := keyVal + [c];
          }
        case Over =>
      }
      lastC := c;
      i := i + 1;
    }
    if objFlag != 0 {
      keyVal := "";
    }
  }

  // -------- the splice --------

  const HEAD := "{\"zmq_com\":\""

  // The request with the push URL put in front of its other members
  function Splice(url: string, json: string): string
    requires json != ""
  {
    HEAD + url + "\"," + json[1..]
  }

  // The scanner reads this URL back from between quotes.
  predicate Quotable(url: string) {
    && (forall k :: 0 <= k < |url| && url[k] == '"' ==> Escaped(url, k))
    && (url != "" ==> url[|url| - 1] != '\\')
  }

  lemma UrlStands(url: string, json: string)
    requires json != ""
    ensures Scan(Splice(url, json), "zmq_com") == ScanValue(":" + "\"" + (url + "\"," + json[1..]))
  {
    var s := Splice(url, json);
    var q := QuotedKey("zmq_com");
    assert |q| == 9 && At(s, q, 1);
    assert q[0] == '"' && s[0] == '{' && !At(s, q, 0);
    FindTextFinds(s, q);
    assert s[10..] == ":" + "\"" + (url + "\"," + json[1..]);
  }

  // Main result, exactly: the URL is found in the spliced message if and only if no quote in it is
  // bare and its end does not escape the quote behind it.
  lemma SpliceUrl(url: string, json: string)
    requires json != ""
    ensures Scan(Splice(url, json), "zmq_com") == url <==> Quotable(url)
  {
    var v := url + "\"," + json[1..];
    UrlStands(url, json);
    ScanQuoted(":", v);
    assert forall k :: 0 <= k < |url| ==> v[k] == url[k];
    assert v[|url|] == '"';
    if Quotable(url) {
      assert Ends(v, |url|);
      assert v[..|url|] == url;
    } else {
      if e :| Ends(v, e) {
        assert e != |url|;
      } else {
        NeverEnds(v, |v|);
        assert Escaped(v, |url|);
      }
    }
  }

  // Between two neighbouring quotes there is only the one key that fits.
  lemma KeyBetween(s: string, key: string, i: int, j: int)
    requires '"' !in key && At(s, QuotedKey(key), i) && i < j < |s| && s[j] == '"'
    requires forall k :: i < k < j ==> s[k] != '"'
    ensures key == s[i + 1..j]
  {
    var q := QuotedKey(key);
    assert forall k {:trigger s[k]} :: i < k < i + |key| + 1 ==> s[k] == key[k - i - 1] && s[k] != '"' by {
      forall k | i < k < i + |key| + 1 ensures s[k] == key[k - i - 1] && s[k] != '"' {
        assert q[k - i] == key[k - i - 1] && key[k - i - 1] in key;
      }
    }
    assert q[|key| + 1] == '"';
    assert s[i + |key| + 1] == '"' && j == i + |key| + 1;
  }

  lemma NotInHead(url: string, json: string, key: string, i: int)
    requires json != "" && '"' !in url && '"' !in key && (key != "" ==> key[0] != ',')
    requires key != "zmq_com" && key != ":" && key != url
    requires 0 <= i < |HEAD + url + "\","|
    ensures !At(Splice(url, json), QuotedKey(key), i)
  {
    var s := Splice(url, json);
    var q := QuotedKey(key);
    var e := 12 + |url|;
    assert s[1] == '"' && s[9] == '"' && s[11] == '"' && s[e] == '"' && s[e + 1] == ',';
    assert forall k :: 12 <= k < e ==> s[k] == url[k - 12];
    assert s[2..9] == "zmq_com" && s[10..11] == ":" && s[12..e] == url;
    if At(s, q, i) {
      assert q[0] == '"' && s[i] == '"' && s[i + 1] == q[1];
      if i == 1 {
        KeyBetween(s, key, 1, 9);
      } else if i == 9 {
        KeyBetween(s, key, 9, 11);
      } else if i == 11 {
        KeyBetween(s, key, 11, e);
      }
    }
  }

  lemma BehindShift(json: string, n: nat, q: string)
    requires n <= |json| && forall i :: 0 <= i < n ==> !At(json, q, i)
    ensures Behind(json, q) == Behind(json[n..], q)
  {
    FindShift(json, n, q);
    AfterShift(json, json[n..], n, FindText(json[n..], q), |q|);
  }

  lemma AfterShift(s: string, t: string, n: nat, i: int, length: nat)
    requires n <= |s| && s[n..] == t && (i < 0 || i + length <= |t|)
    ensures After(s, if i < 0 then -1 else n + i, length) == After(t, i, length)
  {
  }

  // Main result: any other member is read from the spliced message as from the request itself.
  lemma SpliceOthers(url: string, json: string, key: string)
    requires json != "" && json[0] != '"' && '"' !in url && '"' !in key && (key != "" ==> key[0] != ',')
    requires key != "zmq_com" && key != ":" && key != url
    ensures Scan(Splice(url, json), key) == Scan(json, key)
  {
    var head, q := HEAD + url + "\",", QuotedKey(key);
    var spliced := Splice(url, json);
    assert spliced == head + json[1..] && spliced[|head|..] == json[1..];
    forall i | 0 <= i < |head| ensures !At(spliced, q, i) {
      NotInHead(url, json, key, i);
    }
    BehindShift(spliced, |head|, q);
    assert q[0] == '"' && !At(json, q, 0);
    BehindShift(json, 1, q);
  }

  method Copy(buffer: array<char>, at: nat, text: string)
    requires at + |text| <= buffer.Length
    modifies buffer
    ensures buffer[..at] == old(buffer[..at]) && buffer[at..at + |text|] == text
  {
    var i := 0;
    while i < |text|
      invariant 0 <= i <= |text|
      invariant buffer[..at] == old(buffer[..at]) && buffer[at..at + i] == text[..i]
    {
      buffer[at + i] := text[i];
      i := i + 1;
    }
  }

  // sprintf of a text into a buffer that ends in it so far, with the zero that it puts behind
  method PrintText(buffer: array<char>, at: nat, text: string) returns (post: nat)
    requires at + |text| <= buffer.Length
    modifies buffer
    ensures post == at + |text| && buffer[..post] == old(buffer[..at]) + text
  {
    Copy(buffer, at, text);
    post := at + |text|;
    assert buffer[..post] == buffer[..at] + buffer[at..post];
    if post < buffer.Length {
      buffer[post] := '\0';
    }
  }

  // The part of unit_action_match that prepares an inference request; json was parsed, so it is not empty.
  method InferenceData(url: string, json: string) returns (data: array<char>)
    requires json != ""
    ensures fresh(data) && data.Length == |url| + |json| + 13 && data[..] == Splice(url, json)
  {
    data := new char[|url| + |json| + 13](_ => '\0');
    var post := PrintText(data, 0, HEAD);
    post := PrintText(data, post, url);
    post := PrintText(data, post, "\",");
    Copy(data, post, json[1..]);
    assert data[..] == data[..post] + data[post..post + |json[1..]|];
  }
}
