/** The text form of the speech node's audio: section 4 of RFC 4648. */
module Base64 {
  import opened Bytes
  import opened Text

  const UPPER := "ABCDEFGHIJKLMNOPQRSTUVWXYZ"
  const LOWER := "abcdefghijklmnopqrstuvwxyz"
  const OTHER := "0123456789+/"

  // The character that stands for six bits
  function Symbol(v: nat): char
    requires v < 64
  {
    if v < 26 then 'A' + v as char
    else if v < 52 then 'a' + (v - 26) as char
    else if v < 62 then '0' + (v - 52) as char
    else if v == 62 then '+'
    else '/'
  }

  function Alphabet(): (s: string)
    ensures |s| == 64
  {
    UPPER + LOWER + OTHER
  }

  // The table of the code lists them.
  lemma AlphabetAt(v: nat)
    requires v < 64
    ensures Alphabet()[v] == Symbol(v)
  {
    if v < 26 {
      UpperAt(v);
    } else if v < 52 {
      LowerAt(v - 26);
    } else {
      OtherAt(v - 52);
    }
  }

  lemma UpperAt(v: nat)
    requires v < 26
    ensures UPPER[v] == 'A' + v as char
  {
  }

  lemma LowerAt(v: nat)
    requires v < 26
    ensures LOWER[v] == 'a' + v as char
  {
  }

  lemma OtherAt(v: nat)
    requires v < 12
    ensures OTHER[v] == Symbol(v + 52)
  {
  }

  // -------- the encoding, as a function --------

  // The six-bit parts of three bytes
  function Part0(b0: Byte): (v: nat)
    ensures v < 64
  {
    b0 / 4
  }

  function Part1(b0: Byte, b1: Byte): (v: nat)
    ensures v < 64
  {
    b0 % 4 * 16 + b1 / 16
  }

  function Part2(b1: Byte, b2: Byte): (v: nat)
    ensures v < 64
  {
    b1 % 16 * 4 + b2 / 64
  }

  function Part3(b2: Byte): (v: nat)
    ensures v < 64
  {
    b2 % 64
  }

  function Quantum(b0: Byte, b1: Byte, b2: Byte): (s: string)
    ensures |s| == 4
  {
    [Symbol(Part0(b0)), Symbol(Part1(b0, b1)), Symbol(Part2(b1, b2)), Symbol(Part3(b2))]
  }

  function Double(b0: Byte, b1: Byte): string {
    [Symbol(Part0(b0)), Symbol(Part1(b0, b1)), Symbol(Part2(b1, 0)), '=']
  }

  function Single(b0: Byte): string { [Symbol(Part0(b0)), Symbol(Part1(b0, 0)), '=', '='] }

  // Three bytes at a time, and one or two in the end
  function Encode(bytes: seq<Byte>): string {
    if bytes == [] then ""
    else if |bytes| == 1 then Single(bytes[0])
    else if |bytes| == 2 then Double(bytes[0], bytes[1])
    else Quantum(bytes[0], bytes[1], bytes[2]) + Encode(bytes[3..])
  }

  // -------- what it is --------

  // The bits of a byte, the most significant first
  function BitOf(b: Byte, j: nat): nat {
    match j
    case 0 => b / 128 % 2
    case 1 => b / 64 % 2
    case 2 => b / 32 % 2
    case 3 => b / 16 % 2
    case 4 => b / 8 % 2
    case 5 => b / 4 % 2
    case 6 => b / 2 % 2
    case _ => b % 2
  }

  // The bits of all the bytes, in order, and zeros behind them
  function Bit(bytes: seq<Byte>, i: nat): nat { if i / 8 >= |bytes| then 0 else BitOf(bytes[i / 8], i % 8) }

  function SixBits(bytes: seq<Byte>, k: nat): nat {
    32 * Bit(bytes, 6 * k) + 16 * Bit(bytes, 6 * k + 1) + 8 * Bit(bytes, 6 * k + 2)
    + 4 * Bit(bytes, 6 * k + 3) + 2 * Bit(bytes, 6 * k + 4) + Bit(bytes, 6 * k + 5)
  }

  // How many symbols carry bits of n bytes, and how many characters there are with the padding
  function Symbols(n: nat): nat { (8 * n + 5) / 6 }

  function Length(n: nat): nat { (n + 2) / 3 * 4 }

  lemma HalvesHigh(b: Byte)
    ensures b / 128 == b / 128 % 2 && b / 64 == 2 * (b / 128) + b / 64 % 2
    ensures b / 32 == 2 * (b / 64) + b / 32 % 2
  {
    assert b / 32 / 2 == b / 64 && b / 64 / 2 == b / 128;
  }

  lemma HalvesMiddle(b: Byte)
    ensures b / 16 == 2 * (b / 32) + b / 16 % 2 && b / 8 == 2 * (b / 16) + b / 8 % 2
  {
    assert b / 16 / 2 == b / 32 && b / 8 / 2 == b / 16;
  }

  lemma HalvesLow(b: Byte)
    ensures b == 2 * (b / 2) + b % 2 && b / 2 == 2 * (b / 4) + b / 2 % 2 && b / 4 == 2 * (b / 8) + b / 4 % 2
  {
    assert b / 4 / 2 == b / 8 && b / 2 / 2 == b / 4;
  }

  // The two parts of a byte that a cut behind six, four or two bits leaves
  lemma CutsHigh(b: Byte)
    ensures b / 64 == 2 * BitOf(b, 0) + BitOf(b, 1)
    ensures b / 16 == 8 * BitOf(b, 0) + 4 * BitOf(b, 1) + 2 * BitOf(b, 2) + BitOf(b, 3)
    ensures b / 4 ==
      32 * BitOf(b, 0) + 16 * BitOf(b, 1) + 8 * BitOf(b, 2) + 4 * BitOf(b, 3) + 2 * BitOf(b, 4) + BitOf(b, 5)
  {
    HalvesHigh(b);
    HalvesMiddle(b);
    HalvesLow(b);
  }

  lemma CutsLow(b: Byte)
    ensures b % 4 == 2 * BitOf(b, 6) + BitOf(b, 7)
    ensures b % 16 == 8 * BitOf(b, 4) + 4 * BitOf(b, 5) + 2 * BitOf(b, 6) + BitOf(b, 7)
    ensures b % 64 ==
      32 * BitOf(b, 2) + 16 * BitOf(b, 3) + 8 * BitOf(b, 4) + 4 * BitOf(b, 5) + 2 * BitOf(b, 6) + BitOf(b, 7)
  {
    HalvesHigh(b);
    HalvesMiddle(b);
    HalvesLow(b);
    assert b == 4 * (b / 4) + b % 4 && b == 16 * (b / 16) + b % 16 && b == 64 * (b / 64) + b % 64;
  }

  function ByteAt(bytes: seq<Byte>, i: nat): Byte { if i < |bytes| then bytes[i] else 0 }

  lemma BitAt(bytes: seq<Byte>, i: nat, j: nat)
    requires j < 8
    ensures Bit(bytes, 8 * i + j) == BitOf(ByteAt(bytes, i), j)
  {
    assert (8 * i + j) / 8 == i && (8 * i + j) % 8 == j;
    assert BitOf(0, j) == 0;
  }

  // The bits of the first three bytes; those that are missing count as zero.
  lemma FirstBits(bytes: seq<Byte>, k: nat)
    requires k < 4
    ensures
      var b0, b1, b2 := ByteAt(bytes, 0), ByteAt(bytes, 1), ByteAt(bytes, 2);
      SixBits(bytes, k) ==
        if k == 0 then Part0(b0) else if k == 1 then Part1(b0, b1)
        else if k == 2 then Part2(b1, b2) else Part3(b2)
  {
    if k == 0 {
      FirstSix(bytes);
    } else if k == 1 {
      SecondSix(bytes);
    } else if k == 2 {
      ThirdSix(bytes);
    } else {
      FourthSix(bytes);
    }
  }

  lemma FirstSix(bytes: seq<Byte>)
    ensures SixBits(bytes, 0) == Part0(ByteAt(bytes, 0))
  {
    BitAt(bytes, 0, 0);
    BitAt(bytes, 0, 1);
    BitAt(bytes, 0, 2);
    BitAt(bytes, 0, 3);
    BitAt(bytes, 0, 4);
    BitAt(bytes, 0, 5);
    CutsHigh(ByteAt(bytes, 0));
  }

  lemma SecondSix(bytes: seq<Byte>)
    ensures SixBits(bytes, 1) == Part1(ByteAt(bytes, 0), ByteAt(bytes, 1))
  {
    BitAt(bytes, 0, 6);
    BitAt(bytes, 0, 7);
    BitAt(bytes, 1, 0);
    BitAt(bytes, 1, 1);
    BitAt(bytes, 1, 2);
    BitAt(bytes, 1, 3);
    CutsLow(ByteAt(bytes, 0));
    CutsHigh(ByteAt(bytes, 1));
  }

  lemma ThirdSix(bytes: seq<Byte>)
    ensures SixBits(bytes, 2) == Part2(ByteAt(bytes, 1), ByteAt(bytes, 2))
  {
    BitAt(bytes, 1, 4);
    BitAt(bytes, 1, 5);
    BitAt(bytes, 1, 6);
    BitAt(bytes, 1, 7);
    BitAt(bytes, 2, 0);
    BitAt(bytes, 2, 1);
    CutsLow(ByteAt(bytes, 1));
    CutsHigh(ByteAt(bytes, 2));
  }

  lemma FourthSix(bytes: seq<Byte>)
    ensures SixBits(bytes, 3) == Part3(ByteAt(bytes, 2))
  {
    BitAt(bytes, 2, 2);
    BitAt(bytes, 2, 3);
    BitAt(bytes, 2, 4);
    BitAt(bytes, 2, 5);
    BitAt(bytes, 2, 6);
    BitAt(bytes, 2, 7);
    CutsLow(ByteAt(bytes, 2));
  }

  lemma SixBitsShift(bytes: seq<Byte>, k: nat)
    requires |bytes| >= 3
    ensures SixBits(bytes, k + 4) == SixBits(bytes[3..], k)
  {
    forall i: nat ensures Bit(bytes, i + 24) == Bit(bytes[3..], i) {
      assert (i + 24) / 8 == i / 8 + 3 && (i + 24) % 8 == i % 8;
    }
    assert 6 * (k + 4) == 6 * k + 24;
  }

  lemma LengthStep(n: nat)
    requires n >= 3
    ensures Length(n) == Length(n - 3) + 4 && Symbols(n) == Symbols(n - 3) + 4
  {
  }

  lemma {:induction false} LengthOfEncode(bytes: seq<Byte>)
    ensures |Encode(bytes)| == Length(|bytes|)
  {
    if |bytes| >= 3 {
      LengthOfEncode(bytes[3..]);
      LengthStep(|bytes|);
      var q := Quantum(bytes[0], bytes[1], bytes[2]);
      assert Encode(bytes) == q + Encode(bytes[3..]) && |q| == 4;
    } else {
      assert Length(0) == 0 && Length(1) == 4 && Length(2) == 4;
    }
  }

  // What the text has at a place: a symbol as long as there are bits, and then padding
  ghost predicate Right(bytes: seq<Byte>, k: nat) {
    && k < |Encode(bytes)|
    && (k < Symbols(|bytes|) ==> SixBits(bytes, k) < 64 && Encode(bytes)[k] == Symbol(SixBits(bytes, k)))
    && (k >= Symbols(|bytes|) ==> Encode(bytes)[k] == '=')
  }

  lemma FirstRight(bytes: seq<Byte>, k: nat)
    requires k < 4 && bytes != []
    ensures Right(bytes, k)
  {
    var n := |bytes|;
    assert Symbols(1) == 2 && Symbols(2) == 3 && (n >= 3 ==> Symbols(n) >= 4);
    if k < Symbols(n) {
      FirstBits(bytes, k);
    }
  }

  lemma LaterRight(bytes: seq<Byte>, k: nat)
    requires |bytes| >= 3 && k >= 4 && Right(bytes[3..], k - 4)
    ensures Right(bytes, k)
  {
    LengthStep(|bytes|);
    SixBitsShift(bytes, k - 4);
    var q, s := Quantum(bytes[0], bytes[1], bytes[2]), Encode(bytes[3..]);
    assert Encode(bytes) == q + s;
    Behind(q, s, k);
  }

  lemma Behind(q: string, s: string, k: nat)
    requires |q| == 4 && 4 <= k < 4 + |s|
    ensures (q + s)[k] == s[k - 4]
  {
  }

  lemma {:induction false} AllRight(bytes: seq<Byte>, k: nat)
    requires k < Length(|bytes|)
    ensures Right(bytes, k)
    decreases k
  {
    if k < 4 {
      FirstRight(bytes, k);
    } else {
      LengthStep(|bytes|);
      AllRight(bytes[3..], k - 4);
      LaterRight(bytes, k);
    }
  }

  // Main result: the text has four characters for every three bytes or part of them. The symbols
  // spell the bits of the bytes six at a time, in order, and padding follows.
  lemma SpellsTheBits(bytes: seq<Byte>)
    ensures |Encode(bytes)| == Length(|bytes|) && Symbols(|bytes|) <= Length(|bytes|) <= Symbols(|bytes|) + 2
    ensures forall k {:trigger Encode(bytes)[k]} :: 0 <= k < Symbols(|bytes|) ==>
      SixBits(bytes, k) < 64 && Encode(bytes)[k] == Symbol(SixBits(bytes, k))
    ensures forall k {:trigger Encode(bytes)[k]} :: Symbols(|bytes|) <= k < Length(|bytes|) ==> Encode(bytes)[k] == '='
  {
    LengthOfEncode(bytes);
    forall k | 0 <= k < Symbols(|bytes|)
      ensures SixBits(bytes, k) < 64 && Encode(bytes)[k] == Symbol(SixBits(bytes, k)) {
      AllRight(bytes, k);
    }
    forall k | Symbols(|bytes|) <= k < Length(|bytes|) ensures Encode(bytes)[k] == '=' {
      AllRight(bytes, k);
    }
  }

  // -------- the way back --------

  function Code(c: char): (v: Option<nat>)
    ensures v.Some? ==> v.value < 64
  {
    if 'A' <= c <= 'Z' then Some(c as int - 'A' as int)
    else if 'a' <= c <= 'z' then Some(c as int - 'a' as int + 26)
    else if '0' <= c <= '9' then Some(c as int - '0' as int + 52)
    else if c == '+' then Some(62)
    else if c == '/' then Some(63)
    else None
  }

  lemma CodeOfSymbol(v: nat)
    requires v < 64
    ensures Code(Symbol(v)) == Some(v) && Symbol(v) != '='
  {
  }

  lemma SymbolOfCode(c: char)
    ensures Code(c).Some? ==> Symbol(Code(c).value) == c
    ensures c == '=' ==> Code(c) == None
  {
  }

  // Two parts put together and taken apart, at the places where bytes and symbols meet
  lemma Parts4(q: nat, r: nat)
    requires r < 4
    ensures (q * 4 + r) / 4 == q && (q * 4 + r) % 4 == r
  {
  }

  lemma Parts16(q: nat, r: nat)
    requires r < 16
    ensures (q * 16 + r) / 16 == q && (q * 16 + r) % 16 == r
  {
  }

  lemma Parts64(q: nat, r: nat)
    requires r < 64
    ensures (q * 64 + r) / 64 == q && (q * 64 + r) % 64 == r
  {
  }

  // The bytes that six-bit parts give
  function Byte0(a: nat, b: nat): Byte
    requires a < 64 && b < 64
  {
    a * 4 + b / 16
  }

  function Byte1(b: nat, c: nat): Byte
    requires b < 64 && c < 64
  {
    b % 16 * 16 + c / 4
  }

  function Byte2(c: nat, d: nat): Byte
    requires c < 64 && d < 64
  {
    c % 4 * 64 + d
  }

  lemma BytesOfParts(b0: Byte, b1: Byte, b2: Byte)
    ensures Byte0(Part0(b0), Part1(b0, b1)) == b0
    ensures Byte1(Part1(b0, b1), Part2(b1, b2)) == b1
    ensures Byte2(Part2(b1, b2), Part3(b2)) == b2
    ensures (b1 == 0 ==> Part1(b0, b1) % 16 == 0) && (b2 == 0 ==> Part2(b1, b2) % 4 == 0)
  {
    Parts16(b0 % 4, b1 / 16);
    Parts4(b1 % 16, b2 / 64);
  }

  lemma PartsOfBytes(a: nat, b: nat, c: nat, d: nat)
    requires a < 64 && b < 64 && c < 64 && d < 64
    ensures Part0(Byte0(a, b)) == a
    ensures Part1(Byte0(a, b), Byte1(b, c)) == b && (b % 16 == 0 ==> Part1(Byte0(a, b), 0) == b)
    ensures Part2(Byte1(b, c), Byte2(c, d)) == c && (c % 4 == 0 ==> Part2(Byte1(b, c), 0) == c)
    ensures Part3(Byte2(c, d)) == d
  {
    Parts4(a, b / 16);
    Parts16(b % 16, c / 4);
    Parts64(c % 4, d);
  }

  // A full quantum of characters, and those with padding, whose unused bits are zero
  function Three(c0: char, c1: char, c2: char, c3: char): Option<seq<Byte>> {
    match (Code(c0), Code(c1), Code(c2), Code(c3))
    case (Some(a), Some(b), Some(c), Some(d)) => Some([Byte0(a, b), Byte1(b, c), Byte2(c, d)])
    case _ => None
  }

  function Two(c0: char, c1: char, c2: char): Option<seq<Byte>> {
    match (Code(c0), Code(c1), Code(c2))
    case (Some(a), Some(b), Some(c)) => if c % 4 == 0 then Some([Byte0(a, b), Byte1(b, c)]) else None
    case _ => None
  }

  function One(c0: char, c1: char): Option<seq<Byte>> {
    match (Code(c0), Code(c1))
    case (Some(a), Some(b)) => if b % 16 == 0 then Some([Byte0(a, b)]) else None
    case _ => None
  }

  // A strict decoder: padding only in the last quantum
  function Decode(s: string): Option<seq<Byte>> {
    if s == "" then Some([])
    else if |s| < 4 then None
    else if s[3] != '=' then
      match (Three(s[0], s[1], s[2], s[3]), Decode(s[4..]))
      case (Some(bytes), Some(rest)) => Some(bytes + rest)
      case _ => None
    else if |s| > 4 then None
    else if s[2] != '=' then Two(s[0], s[1], s[2])
    else One(s[0], s[1])
  }

  lemma ThreeOfQuantum(b0: Byte, b1: Byte, b2: Byte)
    ensures var q := Quantum(b0, b1, b2); q[3] != '=' && Three(q[0], q[1], q[2], q[3]) == Some([b0, b1, b2])
  {
    CodesOfQuantum(b0, b1, b2);
    BytesOfParts(b0, b1, b2);
  }

  lemma CodesOfQuantum(b0: Byte, b1: Byte, b2: Byte)
    ensures
      var q := Quantum(b0, b1, b2);
      && Code(q[0]) == Some(Part0(b0)) && Code(q[1]) == Some(Part1(b0, b1))
      && Code(q[2]) == Some(Part2(b1, b2)) && Code(q[3]) == Some(Part3(b2))
  {
    CodeOfSymbol(Part0(b0));
    CodeOfSymbol(Part1(b0, b1));
    CodeOfSymbol(Part2(b1, b2));
    CodeOfSymbol(Part3(b2));
  }

  lemma TwoOfDouble(b0: Byte, b1: Byte)
    ensures var q := Double(b0, b1); q[2] != '=' && Two(q[0], q[1], q[2]) == Some([b0, b1])
  {
    CodeOfSymbol(Part0(b0));
    CodeOfSymbol(Part1(b0, b1));
    CodeOfSymbol(Part2(b1, 0));
    BytesOfParts(b0, b1, 0);
  }

  lemma Lonely(b0: Byte, v: nat)
    requires v == b0 % 4 * 16
    ensures Part1(b0, 0) == v && v < 64 && v % 16 == 0 && Byte0(Part0(b0), v) == b0
  {
    Parts16(b0 % 4, 0);
  }

  lemma OneOfSingle(b0: Byte)
    ensures var q := Single(b0); One(q[0], q[1]) == Some([b0])
  {
    var v := b0 % 4 * 16;
    Lonely(b0, v);
    CodeOfSymbol(Part0(b0));
    CodeOfSymbol(v);
  }

  lemma DecodeMore(q: string, head: seq<Byte>, s: string, rest: seq<Byte>)
    requires |q| == 4 && q[3] != '=' && Three(q[0], q[1], q[2], q[3]) == Some(head) && Decode(s) == Some(rest)
    ensures Decode(q + s) == Some(head + rest)
  {
    assert (q + s)[4..] == s;
  }

  lemma DecodeQuantum(b0: Byte, b1: Byte, b2: Byte, s: string, rest: seq<Byte>)
    requires Decode(s) == Some(rest)
    ensures Decode(Quantum(b0, b1, b2) + s) == Some([b0, b1, b2] + rest)
  {
    ThreeOfQuantum(b0, b1, b2);
    DecodeMore(Quantum(b0, b1, b2), [b0, b1, b2], s, rest);
  }

  lemma DecodeDouble(b0: Byte, b1: Byte)
    ensures Decode(Double(b0, b1)) == Some([b0, b1])
  {
    TwoOfDouble(b0, b1);
  }

  lemma DecodeSingle(b0: Byte)
    ensures Decode(Single(b0)) == Some([b0])
  {
    OneOfSingle(b0);
  }

  lemma DecodeLong(bytes: seq<Byte>, s: string)
    requires |bytes| >= 3 && Decode(s) == Some(bytes[3..])
    ensures Decode(Quantum(bytes[0], bytes[1], bytes[2]) + s) == Some(bytes)
  {
    DecodeQuantum(bytes[0], bytes[1], bytes[2], s, bytes[3..]);
    assert [bytes[0], bytes[1], bytes[2]] + bytes[3..] == bytes;
  }

  lemma DecodeShort(bytes: seq<Byte>)
    requires |bytes| < 3
    ensures Decode(Encode(bytes)) == Some(bytes)
  {
    if |bytes| == 2 {
      assert bytes == [bytes[0], bytes[1]] && Encode(bytes) == Double(bytes[0], bytes[1]);
      DecodeDouble(bytes[0], bytes[1]);
    } else if |bytes| == 1 {
      assert bytes == [bytes[0]] && Encode(bytes) == Single(bytes[0]);
      DecodeSingle(bytes[0]);
    } else {
      assert bytes == [] && Encode(bytes) == "";
    }
  }

  lemma {:induction false} DecodeOfEncode(bytes: seq<Byte>)
    ensures Decode(Encode(bytes)) == Some(bytes)
  {
    if |bytes| >= 3 {
      DecodeOfEncode(bytes[3..]);
      DecodeLong(bytes, Encode(bytes[3..]));
    } else {
      DecodeShort(bytes);
    }
  }

  lemma QuantumOfThree(c0: char, c1: char, c2: char, c3: char, bytes: seq<Byte>)
    requires Three(c0, c1, c2, c3) == Some(bytes)
    ensures |bytes| == 3 && Quantum(bytes[0], bytes[1], bytes[2]) == [c0, c1, c2, c3]
  {
    SymbolOfCode(c0);
    SymbolOfCode(c1);
    SymbolOfCode(c2);
    SymbolOfCode(c3);
    PartsOfBytes(Code(c0).value, Code(c1).value, Code(c2).value, Code(c3).value);
  }

  lemma DoubleOfTwo(c0: char, c1: char, c2: char, bytes: seq<Byte>)
    requires Two(c0, c1, c2) == Some(bytes)
    ensures |bytes| == 2 && Double(bytes[0], bytes[1]) == [c0, c1, c2, '=']
  {
    SymbolOfCode(c0);
    SymbolOfCode(c1);
    SymbolOfCode(c2);
    PartsOfBytes(Code(c0).value, Code(c1).value, Code(c2).value, 0);
  }

  lemma LonelyBack(a: nat, b: nat)
    requires a < 64 && b < 64 && b % 16 == 0
    ensures Part0(Byte0(a, b)) == a && Part1(Byte0(a, b), 0) == b
  {
    Parts4(a, b / 16);
    Parts16(b / 16, 0);
  }

  lemma SingleOfOne(c0: char, c1: char, bytes: seq<Byte>)
    requires One(c0, c1) == Some(bytes)
    ensures |bytes| == 1 && Single(bytes[0]) == [c0, c1, '=', '=']
  {
    SymbolOfCode(c0);
    SymbolOfCode(c1);
    LonelyBack(Code(c0).value, Code(c1).value);
  }

  lemma EncodeMore(bytes: seq<Byte>, head: seq<Byte>, rest: seq<Byte>)
    requires bytes == head + rest && |head| == 3
    ensures Encode(bytes) == Quantum(head[0], head[1], head[2]) + Encode(rest)
  {
    assert bytes[3..] == rest;
  }

  lemma MoreBack(s: string, bytes: seq<Byte>, head: seq<Byte>, rest: seq<Byte>)
    requires |s| >= 4 && Three(s[0], s[1], s[2], s[3]) == Some(head)
    requires bytes == head + rest && Encode(rest) == s[4..]
    ensures Encode(bytes) == s
  {
    QuantumOfThree(s[0], s[1], s[2], s[3], head);
    EncodeMore(bytes, head, rest);
    assert s == [s[0], s[1], s[2], s[3]] + s[4..];
  }

  lemma {:induction false} EncodeOfDecode(s: string, bytes: seq<Byte>)
    requires Decode(s) == Some(bytes)
    ensures Encode(bytes) == s
  {
    if s == "" {
    } else if s[3] != '=' {
      var head, rest := Three(s[0], s[1], s[2], s[3]).value, Decode(s[4..]).value;
      EncodeOfDecode(s[4..], rest);
      MoreBack(s, bytes, head, rest);
    } else if s[2] != '=' {
      DoubleOfTwo(s[0], s[1], s[2], bytes);
    } else {
      SingleOfOne(s[0], s[1], bytes);
    }
  }

  // Main result: the texts that decode are exactly those that encoding gives, each of its own bytes.
  lemma DecodeIff(s: string, bytes: seq<Byte>)
    ensures Decode(s) == Some(bytes) <==> s == Encode(bytes)
  {
    DecodeOfEncode(bytes);
    if Decode(s) == Some(bytes) {
      EncodeOfDecode(s, bytes);
    }
  }

  // Different bytes have different texts.
  lemma Injective(a: seq<Byte>, b: seq<Byte>)
    requires Encode(a) == Encode(b)
    ensures a == b
  {
    DecodeOfEncode(a);
    DecodeOfEncode(b);
  }

  // -------- the method --------

  // Shifting right and masking six bits
  function Sextet(value: nat, unit: nat): (v: nat)
    requires unit > 0
    ensures v < 64
  {
    value / unit % 64
  }

  lemma Top(b0: Byte, b1: Byte, b2: Byte)
    ensures Sextet(b0 * 0x1_0000 + b1 * 0x100 + b2, 0x4_0000) == Part0(b0)
  {
    var rest := b0 % 4 * 0x1_0000 + b1 * 0x100 + b2;
    assert b0 * 0x1_0000 + b1 * 0x100 + b2 == b0 / 4 * 0x4_0000 + rest && rest < 0x4_0000;
  }

  lemma Second(b0: Byte, b1: Byte, b2: Byte)
    ensures Sextet(b0 * 0x1_0000 + b1 * 0x100 + b2, 0x1000) == Part1(b0, b1)
  {
    var q, rest := b0 * 16 + b1 / 16, b1 % 16 * 0x100 + b2;
    assert b0 * 0x1_0000 + b1 * 0x100 + b2 == q * 0x1000 + rest && rest < 0x1000;
    assert (b0 * 0x1_0000 + b1 * 0x100 + b2) / 0x1000 == q;
    Parts64(b0 / 4, b0 % 4 * 16 + b1 / 16);
    assert q == b0 / 4 * 64 + (b0 % 4 * 16 + b1 / 16);
  }

  lemma Third(b0: Byte, b1: Byte, b2: Byte)
    ensures Sextet(b0 * 0x1_0000 + b1 * 0x100 + b2, 64) == Part2(b1, b2)
  {
    var q := b0 * 1024 + b1 * 4 + b2 / 64;
    Parts64(q, b2 % 64);
    assert b0 * 0x1_0000 + b1 * 0x100 + b2 == q * 64 + b2 % 64;
    Parts64(b0 * 16 + b1 / 16, b1 % 16 * 4 + b2 / 64);
    assert q == (b0 * 16 + b1 / 16) * 64 + (b1 % 16 * 4 + b2 / 64);
  }

  lemma Fourth(b0: Byte, b1: Byte, b2: Byte)
    ensures Sextet(b0 * 0x1_0000 + b1 * 0x100 + b2, 1) == Part3(b2)
  {
    Parts64(b0 * 1024 + b1 * 4 + b2 / 64, b2 % 64);
    assert b0 * 0x1_0000 + b1 * 0x100 + b2 == (b0 * 1024 + b1 * 4 + b2 / 64) * 64 + b2 % 64;
  }

  // One look into the table
  method Lookup(value: nat, unit: nat) returns (c: char)
    requires unit > 0
    ensures c == Symbol(Sextet(value, unit))
  {
    AlphabetAt(Sextet(value, unit));
    c := Alphabet()[value / unit % 64];
  }

  // The four characters of three bytes
  method Four(b0: Byte, b1: Byte, b2: Byte) returns (s: string)
    ensures s == Quantum(b0, b1, b2)
  {
    var value := b0 * 0x1_0000 + b1 * 0x100 + b2;
    Top(b0, b1, b2);
    Second(b0, b1, b2);
    Third(b0, b1, b2);
    Fourth(b0, b1, b2);
    var c0 := Lookup(value, 0x4_0000);
    var c1 := Lookup(value, 0x1000);
    var c2 := Lookup(value, 64);
    var c3 := Lookup(value, 1);
    s := [c0, c1, c2, c3];
  }

  // base64_encode
  method Base64Encode(bytes: seq<Byte>) returns (out: string)
    ensures out == Encode(bytes)
  {
    out := "";
    var index := 0;
    while index + 3 <= |bytes|
      invariant 0 <= index <= |bytes|
      invariant out + Encode(bytes[index..]) == Encode(bytes)
    {
      var four := Four(bytes[index], bytes[index + 1], bytes[index + 2]);
      EncodeThree(bytes, index, out, four);
      out := out + four;
      index := index + 3;
    }
    var last := Remaining(bytes[index..]);
    out := out + last;
  }

  // What is left behind the last full quantum
  method Remaining(bytes: seq<Byte>) returns (out: string)
    requires |bytes| < 3
    ensures out == Encode(bytes)
  {
    out := "";
    if |bytes| == 1 {
      var four := Four(bytes[0], 0, 0);
      out := four[..2] + "==";
    } else if |bytes| == 2 {
      var four := Four(bytes[0], bytes[1], 0);
      out := four[..3] + "=";
    }
  }

  lemma EncodeThree(bytes: seq<Byte>, index: nat, out: string, four: string)
    requires index + 3 <= |bytes| && four == Quantum(bytes[index], bytes[index + 1], bytes[index + 2])
    ensures out + four + Encode(bytes[index + 3..]) == out + Encode(bytes[index..])
  {
    assert bytes[index..][3..] == bytes[index + 3..];
    assert Encode(bytes[index..]) == four + Encode(bytes[index + 3..]);
  }
}
