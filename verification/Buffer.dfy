/**
 The network library's byte buffer: an array with a reader and a writer index, which grows, and
 which shifts its content to the front in place when that makes enough room.  Each operation is
 proved against what it does to the sequence of readable bytes.
 */
module Buffers {
  import opened Bytes

  const CHEAP_PREPEND: nat := 8
  const EXTRA_BUFFER_SIZE: nat := 1024 * 1024

  // -------- integers in network order --------

  // The low n bytes of x, most significant first
  function BigEndian(x: nat, n: nat): (s: seq<Byte>)
    ensures |s| == n
  {
    if n == 0 then [] else BigEndian(x / 256, n - 1) + [x % 256]
  }

  function FromBigEndian(s: seq<Byte>): nat {
    if s == [] then 0 else 256 * FromBigEndian(s[..|s| - 1]) + s[|s| - 1]
  }

  lemma {:induction false} FromBigEndianOf(x: nat, n: nat)
    ensures FromBigEndian(BigEndian(x, n)) == x % Pow256(n)
  {
    if n > 0 {
      FromBigEndianOf(x / 256, n - 1);
      var s := BigEndian(x, n);
      assert s[..|s| - 1] == BigEndian(x / 256, n - 1);
      ModSplit(x, Pow256(n - 1));
    }
  }

  // The byte order: the first byte is the most significant one.
  lemma {:induction false} BigEndianAt(x: nat, n: nat, k: nat)
    requires k < n
    ensures BigEndian(x, n)[k] == x / Pow256(n - 1 - k) % 256
  {
    if k < n - 1 {
      BigEndianAt(x / 256, n - 1, k);
      DivTwice(x, Pow256(n - 2 - k));
    }
  }

  lemma DivTwice(x: nat, p: nat)
    requires p > 0
    ensures x / 256 / p == x / (256 * p)
  {
    var q := x / 256 / p;
    var r := x / 256 - p * q;
    assert 0 <= r < p && x / 256 == p * q + r;
    assert x == (256 * p) * q + (256 * r + x % 256);
    ModUnique(x, 256 * p, q, 256 * r + x % 256);
    QuotientUnique(x, 256 * p, q, 256 * r + x % 256);
  }

  lemma QuotientUnique(x: nat, m: nat, q: nat, r: nat)
    requires m > 0 && x == m * q + r && r < m
    ensures x / m == q
  {
    var q', r' := x / m, x % m;
    assert x == m * q' + r';
    if q > q' { Grows(m, q', q); } else if q < q' { Grows(m, q, q'); }
  }

  lemma ModSplit(x: nat, m: nat)
    requires m > 0
    ensures 256 * ((x / 256) % m) + x % 256 == x % (256 * m)
  {
    var q, r := (x / 256) / m, (x / 256) % m;
    assert x == 256 * (q * m + r) + x % 256;
    assert x == (256 * m) * q + (256 * r + x % 256);
    assert 0 <= 256 * r + x % 256 < 256 * m;
    ModUnique(x, 256 * m, q, 256 * r + x % 256);
  }

  lemma ModUnique(x: nat, m: nat, q: nat, r: nat)
    requires m > 0 && x == m * q + r && r < m
    ensures x % m == r
  {
    var q', r' := x / m, x % m;
    assert x == m * q' + r';
    if q > q' { Grows(m, q', q); } else if q < q' { Grows(m, q, q'); }
  }

  lemma {:induction false} Grows(m: nat, a: nat, b: nat)
    requires a < b
    ensures m * b >= m * a + m
  {
    if b == a + 1 {
      assert m * (a + 1) == m * a + m;
    } else {
      Grows(m, a, b - 1);
      assert m * ((b - 1) + 1) == m * (b - 1) + m;
    }
  }

  // A signed integer of n bytes, and its two's complement
  predicate Fits(x: int, n: nat) {
    n > 0 && -(Pow256(n) / 2) <= x < Pow256(n) / 2
  }

  function ToNetwork(x: int, n: nat): (s: seq<Byte>)
    requires Fits(x, n)
    ensures |s| == n
  {
    BigEndian(if x < 0 then x + Pow256(n) else x, n)
  }

  function FromNetwork(s: seq<Byte>): int
    requires s != []
  {
    var u := FromBigEndian(s);
    if u < Pow256(|s|) / 2 then u else u - Pow256(|s|)
  }

  lemma NetworkRoundTrip(x: int, n: nat)
    requires Fits(x, n)
    ensures FromNetwork(ToNetwork(x, n)) == x
  {
    var u := if x < 0 then x + Pow256(n) else x;
    FromBigEndianOf(u, n);
    assert Pow256(n) % 2 == 0;
    ModUnique(u, Pow256(n), 0, u);
  }

  // -------- the buffer --------

  class Buffer {
    var data: array<Byte>
    var readerIndex: nat
    var writerIndex: nat

    ghost predicate Valid()
      reads this
    {
      readerIndex <= writerIndex <= data.Length && CHEAP_PREPEND <= data.Length
    }

    // The readable bytes
    function Content(): seq<Byte>
      reads this, data
      requires Valid()
    {
      data[readerIndex..writerIndex]
    }

    constructor (initialSize: nat)
      ensures Valid() && fresh(data)
      ensures Content() == [] && PrependableBytes() == CHEAP_PREPEND && WritableBytes() == initialSize
    {
      data := new Byte[CHEAP_PREPEND + initialSize](_ => 0);
      readerIndex, writerIndex := CHEAP_PREPEND, CHEAP_PREPEND;
    }

    function ReadableBytes(): nat
      reads this
      requires Valid()
    {
      writerIndex - readerIndex
    }

    function WritableBytes(): nat
      reads this
      requires Valid()
    {
      data.Length - writerIndex
    }

    function PrependableBytes(): nat
      reads this
    {
      readerIndex
    }

    method RetrieveAll()
      requires Valid()
      modifies this`readerIndex, this`writerIndex
      ensures Valid() && Content() == [] && PrependableBytes() == CHEAP_PREPEND
    {
      readerIndex, writerIndex := CHEAP_PREPEND, CHEAP_PREPEND;
    }

    method Retrieve(len: nat)
      requires Valid() && len <= ReadableBytes()
      modifies this`readerIndex, this`writerIndex
      ensures Valid() && Content() == old(Content())[len..]
    {
      if len < ReadableBytes() {
        readerIndex := readerIndex + len;
      } else {
        RetrieveAll();
      }
    }

    method RetrieveAsString(len: nat) returns (s: seq<Byte>)
      requires Valid() && len <= ReadableBytes()
      modifies this`readerIndex, this`writerIndex
      ensures Valid() && s + Content() == old(Content()) && |s| == len
    {
      s := data[readerIndex..readerIndex + len];
      Retrieve(len);
    }

    // The copy runs upwards: source and target may overlap.
    method ShiftToFront()
      requires Valid() && CHEAP_PREPEND < readerIndex
      modifies this`readerIndex, this`writerIndex, data
      ensures Valid() && Content() == old(Content()) && PrependableBytes() == CHEAP_PREPEND
    {
      ghost var content := Content();
      var readable := ReadableBytes();
      for i := 0 to readable
        invariant forall k :: 0 <= k < i ==> data[CHEAP_PREPEND + k] == content[k]
        invariant forall k :: i <= k < readable ==> data[readerIndex + k] == content[k]
        modifies data
      {
        data[CHEAP_PREPEND + i] := data[readerIndex + i];
      }
      readerIndex, writerIndex := CHEAP_PREPEND, CHEAP_PREPEND + readable;
    }

    // Room for len bytes: by growing the array, or by shifting the readable bytes to the front
    method MakeSpace(len: nat)
      requires Valid() && WritableBytes() < len
      modifies this, data
      ensures Valid() && (data == old(data) || fresh(data))
      ensures Content() == old(Content()) && WritableBytes() >= len
    {
      if WritableBytes() + PrependableBytes() < len + CHEAP_PREPEND {
        var bigger := new Byte[writerIndex + len](_ => 0);
        forall i | 0 <= i < data.Length {
          bigger[i] := data[i];
        }
        assert bigger[readerIndex..writerIndex] == old(Content());
        data := bigger;
      } else {
        assert CHEAP_PREPEND < readerIndex;
        ShiftToFront();
      }
    }

    method EnsureWritableBytes(len: nat)
      requires Valid()
      modifies this, data
      ensures Valid() && (data == old(data) || fresh(data))
      ensures Content() == old(Content()) && WritableBytes() >= len
    {
      if WritableBytes() < len {
        MakeSpace(len);
      }
      assert WritableBytes() >= len;
    }

    method HasWritten(len: nat)
      requires Valid() && len <= WritableBytes()
      modifies this`writerIndex
      ensures Valid() && Content() == old(Content()) + data[old(writerIndex)..old(writerIndex) + len]
    {
      writerIndex := writerIndex + len;
    }

    // The first part of a scatter read, which takes all the room there is
    method FillUp(bytes: seq<Byte>)
      requires Valid() && |bytes| == WritableBytes()
      modifies this`writerIndex, data
      ensures Valid() && Content() == old(Content()) + bytes
    {
      Fill(bytes);
      writerIndex := data.Length;
    }

    method Append(bytes: seq<Byte>)
      requires Valid()
      modifies this, data
      ensures Valid() && (data == old(data) || fresh(data))
      ensures Content() == old(Content()) + bytes
    {
      EnsureWritableBytes(|bytes|);
      Fill(bytes);
      HasWritten(|bytes|);
    }

    // The copy into the writable part
    method Fill(bytes: seq<Byte>)
      requires Valid() && |bytes| <= WritableBytes()
      modifies data
      ensures Content() == old(Content()) && data[writerIndex..writerIndex + |bytes|] == bytes
    {
      forall i | 0 <= i < |bytes| {
        data[writerIndex + i] := bytes[i];
      }
    }

    method Unwrite(len: nat)
      requires Valid() && len <= ReadableBytes()
      modifies this`writerIndex
      ensures Valid() && Content() == old(Content())[..|old(Content())| - len]
    {
      writerIndex := writerIndex - len;
    }

    method Prepend(bytes: seq<Byte>)
      requires Valid() && |bytes| <= PrependableBytes()
      modifies this`readerIndex, data
      ensures Valid() && Content() == bytes + old(Content())
      ensures PrependableBytes() == old(PrependableBytes()) - |bytes|
    {
      readerIndex := readerIndex - |bytes|;
      forall i | 0 <= i < |bytes| {
        data[readerIndex + i] := bytes[i];
      }
      assert data[readerIndex..readerIndex + |bytes|] == bytes;
      assert Content() == data[readerIndex..readerIndex + |bytes|] + data[readerIndex + |bytes|..writerIndex];
    }

    // The integers of 1, 2, 4 and 8 bytes differ in their width only.
    method AppendInt(x: int, width: nat)
      requires Valid() && Fits(x, width)
      modifies this, data
      ensures Valid() && (data == old(data) || fresh(data))
      ensures Content() == old(Content()) + ToNetwork(x, width)
    {
      Append(ToNetwork(x, width));
    }

    method PrependInt(x: int, width: nat)
      requires Valid() && Fits(x, width) && width <= PrependableBytes()
      modifies this`readerIndex, data
      ensures Valid() && Content() == ToNetwork(x, width) + old(Content())
    {
      Prepend(ToNetwork(x, width));
    }

    method PeekInt(width: nat) returns (x: int)
      requires Valid() && 0 < width <= ReadableBytes()
      ensures x == FromNetwork(Content()[..width])
      ensures forall y, rest :: Fits(y, width) && Content() == ToNetwork(y, width) + rest ==> x == y
    {
      x := FromNetwork(data[readerIndex..readerIndex + width]);
      assert data[readerIndex..readerIndex + width] == Content()[..width];
      forall y, rest | Fits(y, width) && Content() == ToNetwork(y, width) + rest ensures x == y {
        NetworkRoundTrip(y, width);
        assert Content()[..width] == ToNetwork(y, width);
      }
    }

    method ReadInt(width: nat) returns (x: int)
      requires Valid() && 0 < width <= ReadableBytes()
      modifies this`readerIndex, this`writerIndex
      ensures Valid() && Content() == old(Content())[width..]
      ensures forall y, rest :: Fits(y, width) && old(Content()) == ToNetwork(y, width) + rest ==>
        x == y && Content() == rest
    {
      x := PeekInt(width);
      Retrieve(width);
    }

    // readv fills the writable bytes first and a spare buffer after them; it may take fewer bytes
    // than there is room for, or fail.
    method ReadFd(incoming: seq<Byte>, failed: bool) returns (n: int)
      requires Valid()
      requires |incoming| <=
        if WritableBytes() < EXTRA_BUFFER_SIZE then WritableBytes() + EXTRA_BUFFER_SIZE
        else WritableBytes()
      modifies this, data
      ensures Valid() && (data == old(data) || fresh(data))
      ensures n == if failed then -1 else |incoming|
      ensures Content() == old(Content()) + if failed then [] else incoming
    {
      var writable := WritableBytes();
      if failed {
        return -1;
      }
      if |incoming| <= writable {
        Fill(incoming);
        HasWritten(|incoming|);
      } else {
        FillUp(incoming[..writable]);
        Append(incoming[writable..]);
        assert incoming == incoming[..writable] + incoming[writable..];
      }
      n := |incoming|;
    }
  }
}
