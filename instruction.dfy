/** `WhisperChainInstruction` and its Borsh wire format: a one-byte variant
    tag (the declaration index) followed by the variant's fields. */
module Instruction {

  import opened Wrappers
  import opened Borsh

  datatype Instruction =
    | InitializeChat(publicKey: Key)
    | SendMessage(encryptedData: ByteVec, ephemeralPublicKey: Key, timestamp: I64, expiresAt: I64)
    | DeleteChat
    | DeleteMessage

  function Tag(ins: Instruction): Byte
  {
    match ins
    case InitializeChat(_) => 0
    case SendMessage(_, _, _, _) => 1
    case DeleteChat => 2
    case DeleteMessage => 3
  }

  /** Fixed bytes of a SendMessage besides its payload: tag, u32 length, key, two i64. */
  const SEND_OVERHEAD: nat := 1 + 4 + 32 + 8 + 8

  function EncodeInstruction(ins: Instruction): (r: seq<Byte>)
    ensures |r| >= 1 && r[0] == Tag(ins)
    ensures ins.InitializeChat? ==> |r| == 1 + KEY_LEN
    ensures ins.SendMessage? ==> |r| == SEND_OVERHEAD + |ins.encryptedData|
    ensures ins.DeleteChat? || ins.DeleteMessage? ==> |r| == 1
  {
    match ins
    case InitializeChat(key) => [0] + key
    case SendMessage(data, key, timestamp, expiresAt) =>
      [1] + U32Bytes(|data|) + data + key + I64Bytes(timestamp) + I64Bytes(expiresAt)
    case DeleteChat => [2]
    case DeleteMessage => [3]
  }

  /** `WhisperChainInstruction::try_from_slice`: an unknown tag, a truncated
      field or trailing bytes all fail. */
  function DecodeInstruction(s: seq<Byte>): (r: Option<Instruction>)
    ensures |s| == 0 || s[0] >= 4 ==> r.None?
  {
    if |s| == 0 then None
    else if s[0] == 0 then
      if |s| == 1 + KEY_LEN then Some(InitializeChat(s[1..])) else None
    else if s[0] == 1 then
      if |s| < 5 then None
      else
        var n := U32Value(s[1..5]);
        if |s| != SEND_OVERHEAD + n then None
        else Some(SendMessage(s[5..5 + n], s[5 + n..37 + n],
                              I64Value(s[37 + n..45 + n]), I64Value(s[45 + n..])))
    else if s[0] == 2 then
      if |s| == 1 then Some(DeleteChat) else None
    else if s[0] == 3 then
      if |s| == 1 then Some(DeleteMessage) else None
    else None
  }

  lemma InstructionRoundTrip(ins: Instruction)
    ensures DecodeInstruction(EncodeInstruction(ins)) == Some(ins)
  {
    var e := EncodeInstruction(ins);
    match ins
    case InitializeChat(key) =>
      assert e[1..] == key;
    case SendMessage(data, key, timestamp, expiresAt) =>
      var n := |data|;
      var p1 := [1] + U32Bytes(n);
      var p2 := p1 + data;
      var p3 := p2 + key;
      var p4 := p3 + I64Bytes(timestamp);
      assert e[..|e|] == p4 + I64Bytes(expiresAt);
      SplitField(p4, I64Bytes(expiresAt), e);
      SplitField(p3, I64Bytes(timestamp), e);
      SplitField(p2, key, e);
      SplitField(p1, data, e);
      SplitField([1], U32Bytes(n), e);
      assert e[45 + n..] == e[45 + n..|e|];
      U32RoundTrip(n);
      I64RoundTrip(timestamp);
      I64RoundTrip(expiresAt);
    case DeleteChat =>
    case DeleteMessage =>
  }

  /** Every byte string that decodes is the encoding of what it decodes to. */
  lemma InstructionCanonical(s: seq<Byte>)
    requires DecodeInstruction(s).Some?
    ensures EncodeInstruction(DecodeInstruction(s).value) == s
  {
    if s[0] == 0 {
      assert s == [s[0]] + s[1..];
    } else if s[0] == 1 {
      var n := U32Value(s[1..5]);
      U32Canonical(s[1..5]);
      I64Canonical(s[37 + n..45 + n]);
      I64Canonical(s[45 + n..]);
      var p1 := [s[0]] + s[1..5];
      var p2 := p1 + s[5..5 + n];
      var p3 := p2 + s[5 + n..37 + n];
      var p4 := p3 + s[37 + n..45 + n];
      assert s[..1] == [s[0]];
      JoinField([s[0]], s[1..5], s);
      JoinField(p1, s[5..5 + n], s);
      JoinField(p2, s[5 + n..37 + n], s);
      JoinField(p3, s[37 + n..45 + n], s);
      JoinField(p4, s[45 + n..|s|], s);
      assert s == s[..|s|] && s[45 + n..] == s[45 + n..|s|];
    }
  }

  /** A truncated encoding never decodes. */
  lemma TruncatedFails(ins: Instruction, k: nat)
    requires k < |EncodeInstruction(ins)|
    ensures DecodeInstruction(EncodeInstruction(ins)[..k]).None?
  {
    var e := EncodeInstruction(ins);
    var t := e[..k];
    if ins.SendMessage? && k >= 5 {
      var n := |ins.encryptedData|;
      assert t[1..5] == e[1..5] == U32Bytes(n);
      U32RoundTrip(n);
    }
  }
}
