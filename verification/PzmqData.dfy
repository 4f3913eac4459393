/** The length-prefixed pair of strings that processes send each other. */
module PzmqData {
  import opened Text

  // The byte 0..255 that stands for a length, and the number read back from it as a char
  function LengthByte(n: nat): char { (n % 256) as char }

  function AsChar(c: char, charIsSigned: bool): int {
    if charIsSigned && c as int >= 128 then c as int - 256 else c as int
  }

  // pzmq_data::set_param
  function SetParam(param0: string, param1: string): string {
    [LengthByte(|param0|)] + param0 + param1
  }

  // pzmq_data::get_param on the given text, or on the message when that is empty; None when the
  // string constructor throws, or when it reads outside the text
  function GetParam(index: int, given: string, message: string, charIsSigned: bool): Option<string> {
    var s := if given != "" then given else message;
    if s == "" then None
    else
      var n := AsChar(s[0], charIsSigned);
      if n < 0 || n + 1 > |s| then None
      else if index % 2 == 0 then Some(s[1..n + 1])
      else Some(s[n + 1..])
  }

  // The bytes on the wire: the length of the first field, then both
  lemma Layout(a: string, b: string)
    ensures
      var s := SetParam(a, b);
      && |s| == 1 + |a| + |b| && s[0] as int == |a| % 256
      && (forall i :: 0 <= i < |a| ==> s[1 + i] == a[i]) && (forall i :: 0 <= i < |b| ==> s[1 + |a| + i] == b[i])
  {
  }

  // The longest first field whose length survives
  function Limit(charIsSigned: bool): nat { if charIsSigned then 127 else 255 }

  // Main result, exactly: both fields come back if and only if the first is short enough, whatever
  // the second; and then it makes no difference whether the text is the message or is given.
  lemma ParamRoundTrip(a: string, b: string, charIsSigned: bool)
    ensures
      var s := SetParam(a, b);
      && (GetParam(0, "", s, charIsSigned) == Some(a) && GetParam(1, "", s, charIsSigned) == Some(b)
          <==> |a| <= Limit(charIsSigned))
      && forall i, message :: GetParam(i, s, message, charIsSigned) == GetParam(i, "", s, charIsSigned)
  {
    var s := SetParam(a, b);
    if |a| <= Limit(charIsSigned) {
      assert s[0] as int == |a|;
      assert s[1..|a| + 1] == a && s[|a| + 1..] == b;
    } else {
      var n := AsChar(s[0], charIsSigned);
      assert n < 128 || !charIsSigned;
      assert n < |a|;
    }
  }

  // What sys_register_unit reads from the reply of rpc_allocate_unit: always the number, and both
  // URLs if and only if the first is short enough
  lemma RegisterReply(number: nat, outputUrl: string, inferenceUrl: string, charIsSigned: bool)
    requires number <= INT_MAX
    ensures
      var reply := SetParam(Print(number), SetParam(outputUrl, inferenceUrl));
      var inner := GetParam(1, "", reply, charIsSigned);
      && inner.Some?
      && (GetParam(0, inner.value, reply, charIsSigned) == Some(outputUrl)
          && GetParam(1, inner.value, reply, charIsSigned) == Some(inferenceUrl)
          <==> |outputUrl| <= Limit(charIsSigned))
      && (var first := GetParam(0, "", reply, charIsSigned); first.Some? && Stoi(first.value) == Some(number))
  {
    PrintShort(number);
    ParamRoundTrip(Print(number), SetParam(outputUrl, inferenceUrl), charIsSigned);
    ParamRoundTrip(outputUrl, inferenceUrl, charIsSigned);
    StoiOfPrint(number, "");
    assert Print(number) + "" == Print(number);
  }
}
