/** Putting the chunks of a stream together, in whatever order they arrive. */
module DecodeStreams {
  import opened Text
  import JsonScan

  datatype Chunk = Chunk(index: int, delta: string, last: bool)

  // What is read from a message; None when stoi throws
  function Read(message: string): Option<Chunk> {
    ReadOf(JsonScan.Scan(message, "index"), JsonScan.Scan(message, "delta"), JsonScan.Scan(message, "finish"))
  }

  function ReadOf(index: string, delta: string, finish: string): Option<Chunk> {
    match Stoi(index)
    case None => None
    case Some(i) => Some(Chunk(i, delta, 'f' !in finish))
  }

  // The deltas from 0 up to n, in order
  function Join(buff: map<int, string>, n: nat): string
    requires forall i :: 0 <= i < n ==> i in buff
  {
    if n == 0 then "" else Join(buff, n - 1) + buff[n - 1]
  }

  predicate Complete(buff: map<int, string>) { forall i :: 0 <= i < |buff| ==> i in buff }

  // How many deltas there are from 0 on
  function Present(buff: map<int, string>, from: nat): (n: nat)
    requires forall i :: 0 <= i < from ==> i in buff
    requires from <= |buff|
    ensures from <= n <= |buff| && (forall i :: 0 <= i < n ==> i in buff) && (n < |buff| ==> n !in buff)
    decreases |buff| - from
  {
    if from < |buff| && from in buff then Present(buff, from + 1) else from
  }

  datatype Result = Thrown | More | Finished

  // decode_stream, given and giving back what it changes through references
  method DecodeStream(message: string, out: string, buff: map<int, string>)
    returns (r: Result, out': string, buff': map<int, string>)
    ensures r == Outcome(message, buff).0
    ensures out' == out + Outcome(message, buff).1 && buff' == Outcome(message, buff).2
  {
    out', buff' := out, buff;
    assert out + "" == out;
    var chunk := Read(message);
    if chunk.None? {
      return Thrown, out', buff';
    }
    buff' := buff'[chunk.value.index := chunk.value.delta];
    if chunk.value.last {
      var ok;
      ok, out' := AppendAll(out, buff');
      if !ok {
        return Thrown, out', buff';
      }
      return Finished, out', map[];
    }
    return More, out', buff';
  }

  // Its loop; not ok when an index is missing
  method AppendAll(out: string, buff: map<int, string>) returns (ok: bool, out': string)
    ensures out' == out + Join(buff, Present(buff, 0)) && (ok <==> Present(buff, 0) == |buff|)
  {
    out' := out;
    var i := 0;
    while i < |buff|
      invariant 0 <= i <= |buff| && (forall k :: 0 <= k < i ==> k in buff)
      invariant Present(buff, i) == Present(buff, 0) && out' == out + Join(buff, i)
    {
      if i !in buff {
        return false, out';
      }
      out' := out' + buff[i];
      i := i + 1;
    }
    ok := true;
  }

  // Its result, what it appends, and what it leaves in the buffer
  function Outcome(message: string, buff: map<int, string>): (Result, string, map<int, string>) {
    match Read(message)
    case None => (Thrown, "", buff)
    case Some(c) => Take(buff, c)
  }

  function Take(buff: map<int, string>, c: Chunk): (Result, string, map<int, string>) {
    var b := buff[c.index := c.delta];
    if !c.last then (More, "", b)
    else
      var n := Present(b, 0);
      if n < |b| then (Thrown, Join(b, n), b) else (Finished, Join(b, n), map[])
  }

  // -------- when it succeeds --------

  function Below(n: nat): (r: set<int>)
    ensures |r| == n && forall i :: i in r <==> 0 <= i < n
  {
    if n == 0 then {} else Below(n - 1) + {n - 1}
  }

  lemma SubsetOfSameSize<T>(a: set<T>, b: set<T>)
    requires a <= b && |a| == |b|
    ensures a == b
  {
    forall x | x in b ensures x in a {
      if x !in a {
        SubsetSize(a, b - {x});
      }
    }
  }

  lemma {:induction false} SubsetSize<T>(a: set<T>, b: set<T>)
    requires a <= b
    ensures |a| <= |b|
  {
    if a != {} {
      var x :| x in a;
      SubsetSize(a - {x}, b - {x});
    }
  }

  // The loop finds all it looks for exactly when the indices are 0 up to the size, and no others.
  lemma CompleteIff(buff: map<int, string>)
    ensures Complete(buff) <==> buff.Keys == Below(|buff|)
  {
    if Complete(buff) {
      assert |buff.Keys| == |buff|;
      SubsetOfSameSize(Below(|buff|), buff.Keys);
    }
  }

  // Main result, exactly: a finishing chunk completes the stream if and only if the indices are
  // now 0..n-1 with none missing and none beyond. Then all deltas are appended in the order of
  // their indices, and the buffer is empty; otherwise those before the first gap are appended, an
  // exception is thrown, and the buffer stays.
  lemma FinishIff(buff: map<int, string>, c: Chunk)
    requires c.last
    ensures
      var b := buff[c.index := c.delta];
      && (Take(buff, c).0 == Finished <==> b.Keys == Below(|b|))
      && (Take(buff, c).0 == Finished ==> Complete(b) && Take(buff, c).1 == Join(b, |b|) && Take(buff, c).2 == map[])
      && (Take(buff, c).0 != Finished ==>
            (Take(buff, c).0 == Thrown && Take(buff, c).2 == b
            && exists n :: 0 <= n < |b| && n !in b && (forall i :: 0 <= i < n ==> i in b)
                           && Take(buff, c).1 == Join(b, n)))
  {
    CompleteIff(buff[c.index := c.delta]);
  }

  // -------- in any order --------

  // The buffer after some chunks
  function Store(cs: seq<Chunk>): map<int, string> {
    if cs == [] then map[] else Store(cs[..|cs| - 1])[cs[|cs| - 1].index := cs[|cs| - 1].delta]
  }

  // No two chunks say different things under one index.
  predicate Consistent(cs: seq<Chunk>) {
    forall x, y :: x in cs && y in cs && x.index == y.index ==> x.delta == y.delta
  }

  lemma {:induction false} StoreHas(cs: seq<Chunk>, c: Chunk)
    requires Consistent(cs) && c in cs
    ensures c.index in Store(cs) && Store(cs)[c.index] == c.delta
  {
    var init := cs[..|cs| - 1];
    var last := cs[|cs| - 1];
    assert cs == init + [last] && last in cs;
    if c != last {
      assert c in init;
      StoreHas(init, c);
    }
  }

  lemma {:induction false} StoreFrom(cs: seq<Chunk>, i: int)
    requires i in Store(cs)
    ensures exists c :: c in cs && c.index == i
  {
    var last := cs[|cs| - 1];
    assert last in cs;
    if last.index != i {
      StoreFrom(cs[..|cs| - 1], i);
      var c :| c in cs[..|cs| - 1] && c.index == i;
      assert c in cs;
    }
  }

  // Main result: the order of arrival does not matter.
  lemma StoreInAnyOrder(a: seq<Chunk>, b: seq<Chunk>)
    requires multiset(a) == multiset(b) && Consistent(a)
    ensures Store(a) == Store(b)
  {
    assert forall c :: c in a <==> c in multiset(a);
    assert forall c :: c in b <==> c in multiset(b);
    forall i ensures i in Store(a) <==> i in Store(b) {
      if i in Store(a) {
        StoreFrom(a, i);
        var c :| c in a && c.index == i;
        StoreHas(b, c);
      }
      if i in Store(b) {
        StoreFrom(b, i);
        var c :| c in b && c.index == i;
        StoreHas(a, c);
      }
    }
    forall i | i in Store(a) ensures Store(a)[i] == Store(b)[i] {
      StoreFrom(a, i);
      var c :| c in a && c.index == i;
      StoreHas(a, c);
      StoreHas(b, c);
    }
  }

  // The chunks of one stream, numbered as they are sent
  predicate Numbered(cs: seq<Chunk>) { forall k :: 0 <= k < |cs| ==> cs[k].index == k }

  function Deltas(cs: seq<Chunk>): string {
    if cs == [] then "" else Deltas(cs[..|cs| - 1]) + cs[|cs| - 1].delta
  }

  lemma {:induction false} StoreOfNumbered(cs: seq<Chunk>)
    requires Numbered(cs)
    ensures Store(cs).Keys == Below(|cs|) && |Store(cs)| == |cs|
    ensures forall k :: 0 <= k < |cs| ==> Store(cs)[k] == cs[k].delta
  {
    if cs != [] {
      StoreOfNumbered(cs[..|cs| - 1]);
    }
    assert |Store(cs).Keys| == |Store(cs)|;
  }

  lemma {:induction false} JoinOfNumbered(buff: map<int, string>, cs: seq<Chunk>)
    requires forall k :: 0 <= k < |cs| ==> k in buff && buff[k] == cs[k].delta
    ensures Join(buff, |cs|) == Deltas(cs)
  {
    if cs != [] {
      JoinOfNumbered(buff, cs[..|cs| - 1]);
    }
  }

  // One chunk after another; None once one of them throws, or finishes before the end
  function TakeAll(buff: map<int, string>, cs: seq<Chunk>): Option<(Result, string, map<int, string>)>
    decreases cs
  {
    if cs == [] then Some((More, "", buff))
    else
      var t := Take(buff, cs[0]);
      if |cs| == 1 then Some(t) else if t.0 != More then None else TakeAll(t.2, cs[1..])
  }

  lemma {:induction false} TakeAllOf(before: seq<Chunk>, cs: seq<Chunk>, last: Chunk)
    requires forall c :: c in cs ==> !c.last
    ensures TakeAll(Store(before), cs + [last]) == Some(Take(Store(before + cs), last))
    decreases cs
  {
    if cs == [] {
      assert before + cs == before && cs + [last] == [last];
    } else {
      assert cs[0] in cs && (cs + [last])[1..] == cs[1..] + [last];
      assert (before + [cs[0]])[..|before|] == before && before + [cs[0]] + cs[1..] == before + cs;
      TakeAllOf(before + [cs[0]], cs[1..], last);
    }
  }

  // Main result: the chunks of a numbered stream give its whole text in order, whatever the order
  // in which those before the finishing one arrive.
  lemma AnyOrder(sent: seq<Chunk>, arrived: seq<Chunk>)
    requires Numbered(sent) && sent != [] && sent[|sent| - 1].last && forall k :: 0 <= k < |sent| - 1 ==> !sent[k].last
    requires multiset(arrived) == multiset(sent[..|sent| - 1])
    ensures TakeAll(map[], arrived + [sent[|sent| - 1]]) == Some((Finished, Deltas(sent), map[]))
  {
    var init, last := sent[..|sent| - 1], sent[|sent| - 1];
    forall c | c in arrived ensures !c.last {
      assert c in multiset(arrived) && c in init;
    }
    TakeAllOf([], arrived, last);
    assert [] + arrived == arrived;
    StoreInAnyOrder(init, arrived);
    StoreOfNumbered(sent);
    assert Store(sent) == Store(init)[last.index := last.delta];
    FinishIff(Store(arrived), last);
    JoinOfNumbered(Store(sent), sent);
  }
}
