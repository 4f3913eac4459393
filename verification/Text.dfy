/** Printed and scanned integers, as std::to_string, std::stoi and sscanf's %i make and read them. */
module Text {

  datatype Option<+T> = None | Some(value: T)

  const INT_MAX := 0x7fff_ffff

  predicate IsDigit(c: char) { '0' <= c <= '9' }

  predicate IsSpace(c: char) { c == ' ' || '\t' <= c <= '\r' }

  function DigitOf(d: nat): (c: char)
    requires d < 10
    ensures IsDigit(c) && c as int - '0' as int == d
  {
    ('0' as int + d) as char
  }

  // std::to_string of a number that is not negative
  function Print(n: nat): (s: string)
    ensures s != [] && forall i :: 0 <= i < |s| ==> IsDigit(s[i])
    ensures n > 0 ==> s[0] != '0'
    decreases n
  {
    if n < 10 then [DigitOf(n)] else Print(n / 10) + [DigitOf(n % 10)]
  }

  // The same for any number
  function PrintInt(n: int): string { if n < 0 then "-" + Print(-n) else Print(n) }

  // The value of a digit character in bases up to 16, or 16 when it is none
  function DigitValue(c: char): nat {
    if IsDigit(c) then c as int - '0' as int
    else if 'a' <= c <= 'f' then c as int - 'a' as int + 10
    else if 'A' <= c <= 'F' then c as int - 'A' as int + 10
    else 16
  }

  // The length of the longest prefix of digits of a base
  function Run(s: string, base: nat): (n: nat)
    requires base <= 16
    ensures n <= |s|
  {
    if s == [] || DigitValue(s[0]) >= base then 0 else 1 + Run(s[1..], base)
  }

  // It is the longest prefix of digits.
  lemma {:induction false} RunIsLongest(s: string, base: nat)
    requires base <= 16
    ensures forall i :: 0 <= i < Run(s, base) ==> DigitValue(s[i]) < base
    ensures Run(s, base) < |s| ==> DigitValue(s[Run(s, base)]) >= base
  {
    if s != [] && DigitValue(s[0]) < base {
      RunIsLongest(s[1..], base);
      forall i | 0 <= i < Run(s, base) ensures DigitValue(s[i]) < base {
        assert i > 0 ==> s[i] == s[1..][i - 1];
      }
    }
  }

  // A value that one more digit is about to follow, in one of the three bases
  function Shifted(v: nat, base: nat): nat {
    if base == 16 then 16 * v else if base == 8 then 8 * v else 10 * v
  }

  function Value(s: string, base: nat): nat
    decreases s
  {
    if s == [] then 0 else Shifted(Value(s[..|s| - 1], base), base) + DigitValue(s[|s| - 1])
  }

  function SkipSpace(s: string): string {
    if s != [] && IsSpace(s[0]) then SkipSpace(s[1..]) else s
  }

  // What is left after an optional sign, and whether the sign is a minus
  function SkipSign(s: string): (string, bool) {
    if s != [] && (s[0] == '+' || s[0] == '-') then (s[1..], s[0] == '-') else (s, false)
  }

  function Signed(minus: bool, v: int): int { if minus then -v else v }

  // The value of the longest prefix of digits, if there is one
  function Prefix(s: string, base: nat): Option<nat>
    requires base <= 16
  {
    if Run(s, base) == 0 then None else Some(Value(s[..Run(s, base)], base))
  }

  // std::stoi; None when it throws
  function Stoi(s: string): Option<int> {
    var (t, minus) := SkipSign(SkipSpace(s));
    match Prefix(t, 10)
    case None => None
    case Some(v) => if -INT_MAX - 1 <= Signed(minus, v) <= INT_MAX then Some(Signed(minus, v)) else None
  }

  // The digits that %i takes, in the base it finds by itself
  function AnyBase(t: string): Option<nat> {
    if |t| > 2 && t[0] == '0' && (t[1] == 'x' || t[1] == 'X') && DigitValue(t[2]) < 16 then Prefix(t[2..], 16)
    else if t != [] && t[0] == '0' then Prefix(t, 8)
    else Prefix(t, 10)
  }

  // sscanf's %i; None when nothing matches
  function ScanI(s: string): Option<int> {
    var (t, minus) := SkipSign(SkipSpace(s));
    match AnyBase(t)
    case None => None
    case Some(v) => Some(Signed(minus, v))
  }

  lemma {:induction false} RunOf(s: string, rest: string, base: nat)
    requires base <= 16 && (forall i :: 0 <= i < |s| ==> DigitValue(s[i]) < base)
    requires rest == [] || DigitValue(rest[0]) >= base
    ensures Run(s + rest, base) == |s|
  {
    if s == [] {
      assert s + rest == rest;
    } else {
      assert (s + rest)[1..] == s[1..] + rest;
      RunOf(s[1..], rest, base);
    }
  }

  lemma {:induction false} ValueOfPrint(n: nat)
    ensures Value(Print(n), 10) == n
    decreases n
  {
    var s := Print(n);
    if n >= 10 {
      ValueOfPrint(n / 10);
      assert s[..|s| - 1] == Print(n / 10);
    } else {
      assert s[..0] == [] && Value(s[..0], 10) == 0;
    }
  }

  lemma PrefixOfPrint(n: nat, rest: string)
    requires rest == [] || !IsDigit(rest[0])
    ensures Prefix(Print(n) + rest, 10) == Some(n)
    ensures var s := Print(n) + rest; SkipSign(SkipSpace(s)) == (s, false) && (n > 0 ==> s[0] != '0')
  {
    var s := Print(n) + rest;
    assert s[0] == Print(n)[0] && IsDigit(s[0]);
    RunOf(Print(n), rest, 10);
    ValueOfPrint(n);
    assert s[..|Print(n)|] == Print(n);
  }

  // stoi reads a printed number back, up to whatever follows it.
  lemma StoiOfPrint(n: nat, rest: string)
    requires n <= INT_MAX && (rest == [] || !IsDigit(rest[0]))
    ensures Stoi(Print(n) + rest) == Some(n)
  {
    PrefixOfPrint(n, rest);
  }

  // Exactly: it reads every integer of an int's range, with its sign, whatever spaces are before it, and
  // throws for all others.
  lemma StoiIff(spaces: string, n: int, rest: string)
    requires (forall i :: 0 <= i < |spaces| ==> IsSpace(spaces[i])) && (rest == [] || !IsDigit(rest[0]))
    ensures Stoi(spaces + (PrintInt(n) + rest)) == if -INT_MAX - 1 <= n <= INT_MAX then Some(n) else None
  {
    if n >= 0 {
      StoiUnsigned(spaces, n, rest);
    } else {
      StoiNegative(spaces, -n, rest);
    }
  }

  lemma StoiUnsigned(spaces: string, n: nat, rest: string)
    requires (forall i :: 0 <= i < |spaces| ==> IsSpace(spaces[i])) && (rest == [] || !IsDigit(rest[0]))
    ensures Stoi(spaces + (Print(n) + rest)) == if n <= INT_MAX then Some(n) else None
  {
    SkipSpaces(spaces, Print(n) + rest);
    PrefixOfPrint(n, rest);
    StoiSigned(spaces + (Print(n) + rest), Print(n) + rest, false, n);
  }

  lemma StoiNegative(spaces: string, n: int, rest: string)
    requires n >= 0 && (forall i :: 0 <= i < |spaces| ==> IsSpace(spaces[i])) && (rest == [] || !IsDigit(rest[0]))
    ensures Stoi(spaces + (("-" + Print(n)) + rest)) == if n <= INT_MAX + 1 then Some(-n) else None
  {
    var t := Print(n) + rest;
    Associated("-", Print(n), rest);
    SkipSpaces(spaces, "-" + t);
    SkipMinus(t);
    PrefixOfPrint(n, rest);
    StoiSigned(spaces + ("-" + t), t, true, n);
  }

  lemma Associated(a: string, b: string, c: string)
    ensures (a + b) + c == a + (b + c)
  {
  }

  lemma SkipMinus(t: string)
    ensures SkipSign(SkipSpace("-" + t)) == (t, true)
  {
    assert ("-" + t)[1..] == t;
  }

  lemma StoiSigned(s: string, t: string, minus: bool, v: nat)
    requires SkipSign(SkipSpace(s)) == (t, minus) && Prefix(t, 10) == Some(v)
    ensures Stoi(s) == if -INT_MAX - 1 <= Signed(minus, v) <= INT_MAX then Some(Signed(minus, v)) else None
  {
  }

  lemma {:induction false} SkipSpaces(spaces: string, t: string)
    requires forall i :: 0 <= i < |spaces| ==> IsSpace(spaces[i])
    ensures SkipSpace(spaces + t) == SkipSpace(t)
  {
    if spaces == "" {
      assert spaces + t == t;
    } else {
      assert (spaces + t)[1..] == spaces[1..] + t && (spaces + t)[0] == spaces[0];
      SkipSpaces(spaces[1..], t);
    }
  }

  // The other bases of %i, by their prefixes
  lemma ScanIOfHex(digits: string, rest: string)
    requires digits != "" && (forall i :: 0 <= i < |digits| ==> DigitValue(digits[i]) < 16)
    requires rest == "" || DigitValue(rest[0]) >= 16
    ensures ScanI("0x" + (digits + rest)) == Some(Value(digits, 16))
  {
    PrefixOfDigits(digits, rest, 16);
    AnyBaseHex(digits + rest);
    ScanIOf("0x" + (digits + rest), Value(digits, 16));
  }

  lemma AnyBaseHex(d: string)
    requires d != "" && DigitValue(d[0]) < 16
    ensures AnyBase("0x" + d) == Prefix(d, 16)
  {
    var s := "0x" + d;
    assert s[2..] == d && s[0] == '0' && s[1] == 'x' && s[2] == d[0];
  }

  lemma AnyBaseOctal(s: string)
    requires |s| >= 2 && s[0] == '0' && s[1] != 'x' && s[1] != 'X'
    ensures AnyBase(s) == Prefix(s, 8)
  {
  }

  lemma ScanIOf(s: string, n: nat)
    requires s != "" && IsDigit(s[0]) && AnyBase(s) == Some(n)
    ensures ScanI(s) == Some(n)
  {
    assert SkipSign(SkipSpace(s)) == (s, false);
  }

  lemma ScanIOfOctal(digits: string, rest: string)
    requires |digits| > 1 && digits[0] == '0' && (forall i :: 0 <= i < |digits| ==> DigitValue(digits[i]) < 8)
    requires rest == "" || DigitValue(rest[0]) >= 8
    ensures ScanI(digits + rest) == Some(Value(digits, 8))
  {
    PrefixOfDigits(digits, rest, 8);
    assert (digits + rest)[0] == digits[0] && (digits + rest)[1] == digits[1] && DigitValue(digits[1]) < 8;
    AnyBaseOctal(digits + rest);
    ScanIOf(digits + rest, Value(digits, 8));
  }

  lemma PrefixOfDigits(digits: string, rest: string, base: nat)
    requires digits != "" && base <= 16 && (forall i :: 0 <= i < |digits| ==> DigitValue(digits[i]) < base)
    requires rest == "" || DigitValue(rest[0]) >= base
    ensures Prefix(digits + rest, base) == Some(Value(digits, base))
  {
    RunOf(digits, rest, base);
    assert (digits + rest)[..|digits|] == digits;
  }

  // %i does too, unless what follows makes it read on, or read a zero as the start of another base.
  lemma ScanIOfPrint(n: nat, rest: string)
    requires rest == [] || (!IsDigit(rest[0]) && rest[0] != 'x' && rest[0] != 'X')
    ensures ScanI(Print(n) + rest) == Some(n)
  {
    PrefixOfPrint(n, rest);
    if n == 0 {
      ScanIOfZero(rest);
    }
  }

  lemma ScanIOfPrintInt(n: int, rest: string)
    requires rest == [] || (!IsDigit(rest[0]) && rest[0] != 'x' && rest[0] != 'X')
    ensures ScanI(PrintInt(n) + rest) == Some(n)
  {
    if n >= 0 {
      ScanIOfPrint(n, rest);
    } else {
      var t := Print(-n) + rest;
      ScanIOfPrint(-n, rest);
      PrefixOfPrint(-n, rest);
      assert ("-" + Print(-n)) + rest == "-" + t;
      ScanINegative(t, -n);
    }
  }

  lemma ScanINegative(t: string, n: int)
    requires SkipSign(SkipSpace(t)) == (t, false) && ScanI(t) == Some(n)
    ensures ScanI("-" + t) == Some(-n)
  {
    assert ("-" + t)[1..] == t;
  }

  lemma ScanIOfZero(rest: string)
    requires rest == [] || (!IsDigit(rest[0]) && rest[0] != 'x' && rest[0] != 'X')
    ensures AnyBase("0" + rest) == Some(0)
  {
    var s := "0" + rest;
    assert s[0] == '0' && (|s| > 1 ==> s[1] == rest[0]);
    RunOf("0", rest, 8);
    assert s[..1] == "0" && "0"[..0] == [] && Value("0", 8) == 0;
  }

  lemma PrintInjective(n: nat, m: nat)
    requires Print(n) == Print(m)
    ensures n == m
  {
    ValueOfPrint(n);
    ValueOfPrint(m);
  }

  function Pow10(k: nat): nat { if k == 0 then 1 else 10 * Pow10(k - 1) }

  lemma {:induction false} PrintLength(n: nat, k: nat)
    requires n < 10 * Pow10(k)
    ensures |Print(n)| <= k + 1
  {
    if n >= 10 {
      PrintLength(n / 10, k - 1);
    }
  }

  lemma PrintShort(n: nat)
    requires n <= INT_MAX
    ensures |Print(n)| <= 10
  {
    PrintLength(n, 9);
  }

  // A name, a dot and a number: both can be told from the text.
  lemma DottedInjective(a: string, n: nat, b: string, m: nat)
    requires a + "." + Print(n) == b + "." + Print(m)
    ensures a == b && n == m
  {
    LastDot(a, Print(n), b, Print(m));
    PrintInjective(n, m);
  }

  lemma LastDot(a: string, x: string, b: string, y: string)
    requires '.' !in x && '.' !in y && a + "." + x == b + "." + y
    ensures a == b && x == y
  {
    var s := a + "." + x;
    assert s[|a|] == '.' && forall i :: |a| < i < |s| ==> s[i] == x[i - |a| - 1];
    assert s[|b|] == '.' && forall i :: |b| < i < |s| ==> s[i] == y[i - |b| - 1];
    assert s[..|a|] == a && (b + "." + y)[..|a|] == b;
    assert s[|a| + 1..] == x && (b + "." + y)[|a| + 1..] == y;
  }
}
