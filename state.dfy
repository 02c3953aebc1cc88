/** The account records `Chat` and `Message`, their sizes, predicates and
    their Borsh layout (fields in declaration order). */
module State {

  import opened Wrappers
  import opened Borsh

  /** Largest accepted `encrypted_data` payload, in bytes. */
  const MAX_MESSAGE_SIZE: nat := 512

  /** `Chat::LEN`: flag, two participants, two public keys, three 8-byte integers. */
  const CHAT_LEN: nat := 1 + 32 + 32 + 32 + 32 + 8 + 8 + 8

  datatype Chat = Chat(
    isInitialized: bool,
    participant1: Key,
    participant2: Key,
    participant1PublicKey: Key,
    participant2PublicKey: Key,
    createdAt: I64,
    messageCount: U64,
    lastMessageAt: I64)

  datatype Message = Message(
    isInitialized: bool,
    chat: Key,
    sender: Key,
    index: U64,
    timestamp: I64,
    expiresAt: I64,
    ephemeralPublicKey: Key,
    encryptedData: ByteVec)

  /** `Chat::is_participant`. */
  predicate IsParticipant(chat: Chat, key: Key)
  {
    chat.participant1 == key || chat.participant2 == key
  }

  /** While the second seat is still free, the zero key counts as a participant. */
  lemma ZeroKeyIsParticipantWhileUnset(chat: Chat)
    requires chat.participant2 == ZERO_KEY
    ensures IsParticipant(chat, ZERO_KEY)
  {
  }

  /** `Message::space`: the account size for a payload of `dataSize` bytes,
      counting the payload's 4-byte length prefix. */
  function MessageSpace(dataSize: nat): nat
  {
    1 + 32 + 32 + 8 + 8 + 8 + 32 + 4 + dataSize
  }

  /** `Message::is_expired`: only a positive expiry can ever pass. */
  predicate IsExpired(message: Message, now: I64)
  {
    message.expiresAt > 0 && now >= message.expiresAt
  }

  lemma NonPositiveExpiryNeverExpires(message: Message, now: I64)
    requires message.expiresAt <= 0
    ensures !IsExpired(message, now)
  {
  }

  // ---------------------------------------------------------------------------
  // Borsh layout of Chat

  function EncodeChat(c: Chat): (r: seq<Byte>)
    ensures |r| == CHAT_LEN
  {
    [BoolByte(c.isInitialized)] + c.participant1 + c.participant2
    + c.participant1PublicKey + c.participant2PublicKey
    + I64Bytes(c.createdAt) + U64Bytes(c.messageCount) + I64Bytes(c.lastMessageAt)
  }

  /** `Chat::try_from_slice`: the record is fixed-size, so a shorter slice runs
      out of input and a longer one leaves trailing bytes; both fail. */
  function DecodeChat(s: seq<Byte>): (r: Option<Chat>)
    ensures r.Some? ==> |s| == CHAT_LEN
  {
    if |s| != CHAT_LEN then None
    else
      match ByteBool(s[0])
      case None => None
      case Some(init) =>
        Some(Chat(init, s[1..33], s[33..65], s[65..97], s[97..129],
                  I64Value(s[129..137]), U64Value(s[137..145]), I64Value(s[145..153])))
  }

  lemma ChatRoundTrip(c: Chat)
    ensures DecodeChat(EncodeChat(c)) == Some(c)
  {
    var e := EncodeChat(c);
    var p1 := [BoolByte(c.isInitialized)] + c.participant1;
    var p2 := p1 + c.participant2;
    var p3 := p2 + c.participant1PublicKey;
    var p4 := p3 + c.participant2PublicKey;
    var p5 := p4 + I64Bytes(c.createdAt);
    var p6 := p5 + U64Bytes(c.messageCount);
    assert e[..|e|] == p6 + I64Bytes(c.lastMessageAt);
    SplitField(p6, I64Bytes(c.lastMessageAt), e);
    SplitField(p5, U64Bytes(c.messageCount), e);
    SplitField(p4, I64Bytes(c.createdAt), e);
    SplitField(p3, c.participant2PublicKey, e);
    SplitField(p2, c.participant1PublicKey, e);
    SplitField(p1, c.participant2, e);
    SplitField([BoolByte(c.isInitialized)], c.participant1, e);
    I64RoundTrip(c.createdAt);
    U64RoundTrip(c.messageCount);
    I64RoundTrip(c.lastMessageAt);
  }

  /** Every slice that decodes is the encoding of what it decodes to. */
  lemma ChatCanonical(s: seq<Byte>)
    requires DecodeChat(s).Some?
    ensures EncodeChat(DecodeChat(s).value) == s
  {
    I64Canonical(s[129..137]);
    U64Canonical(s[137..145]);
    I64Canonical(s[145..153]);
    var p1 := [s[0]] + s[1..33];
    var p2 := p1 + s[33..65];
    var p3 := p2 + s[65..97];
    var p4 := p3 + s[97..129];
    var p5 := p4 + s[129..137];
    var p6 := p5 + s[137..145];
    assert s[..1] == [s[0]];
    JoinField([s[0]], s[1..33], s);
    JoinField(p1, s[33..65], s);
    JoinField(p2, s[65..97], s);
    JoinField(p3, s[97..129], s);
    JoinField(p4, s[129..137], s);
    JoinField(p5, s[137..145], s);
    JoinField(p6, s[145..153], s);
    assert s == s[..|s|];
  }

  /** A zero-filled Chat account reads back as an uninitialized record. */
  lemma ZeroedChatReadsUninitialized()
    ensures DecodeChat(Zeros(CHAT_LEN)) == Some(Chat(false, ZERO_KEY, ZERO_KEY, ZERO_KEY, ZERO_KEY, 0, 0, 0))
  {
    var z := Zeros(CHAT_LEN);
    assert z[1..33] == ZERO_KEY && z[33..65] == ZERO_KEY;
    assert z[65..97] == ZERO_KEY && z[97..129] == ZERO_KEY;
    assert z[129..137] == Zeros(8) && z[137..145] == Zeros(8) && z[145..153] == Zeros(8);
    LeValueOfZeros(8);
  }

  // ---------------------------------------------------------------------------
  // Borsh layout of Message

  function EncodeMessage(m: Message): (r: seq<Byte>)
    ensures |r| == MessageSpace(|m.encryptedData|)
  {
    [BoolByte(m.isInitialized)] + m.chat + m.sender
    + U64Bytes(m.index) + I64Bytes(m.timestamp) + I64Bytes(m.expiresAt)
    + m.ephemeralPublicKey + U32Bytes(|m.encryptedData|) + m.encryptedData
  }

  /** `Message::try_from_slice`: the payload length is read from bytes 121..125;
      a slice shorter or longer than the record it announces fails. */
  function DecodeMessage(s: seq<Byte>): (r: Option<Message>)
    ensures r.Some? ==> |s| == MessageSpace(|r.value.encryptedData|)
  {
    if |s| < MessageSpace(0) then None
    else
      var n := U32Value(s[121..125]);
      if |s| != MessageSpace(n) then None
      else
        match ByteBool(s[0])
        case None => None
        case Some(init) =>
          Some(Message(init, s[1..33], s[33..65], U64Value(s[65..73]), I64Value(s[73..81]),
                       I64Value(s[81..89]), s[89..121], s[125..]))
  }

  lemma MessageRoundTrip(m: Message)
    ensures DecodeMessage(EncodeMessage(m)) == Some(m)
  {
    var e := EncodeMessage(m);
    var n := |m.encryptedData|;
    var p1 := [BoolByte(m.isInitialized)] + m.chat;
    var p2 := p1 + m.sender;
    var p3 := p2 + U64Bytes(m.index);
    var p4 := p3 + I64Bytes(m.timestamp);
    var p5 := p4 + I64Bytes(m.expiresAt);
    var p6 := p5 + m.ephemeralPublicKey;
    var p7 := p6 + U32Bytes(n);
    assert e[..|e|] == p7 + m.encryptedData;
    SplitField(p7, m.encryptedData, e);
    SplitField(p6, U32Bytes(n), e);
    SplitField(p5, m.ephemeralPublicKey, e);
    SplitField(p4, I64Bytes(m.expiresAt), e);
    SplitField(p3, I64Bytes(m.timestamp), e);
    SplitField(p2, U64Bytes(m.index), e);
    SplitField(p1, m.sender, e);
    SplitField([BoolByte(m.isInitialized)], m.chat, e);
    assert e[125..] == e[125..|e|];
    U32RoundTrip(n);
    U64RoundTrip(m.index);
    I64RoundTrip(m.timestamp);
    I64RoundTrip(m.expiresAt);
  }

  lemma MessageCanonical(s: seq<Byte>)
    requires DecodeMessage(s).Some?
    ensures EncodeMessage(DecodeMessage(s).value) == s
  {
    U32Canonical(s[121..125]);
    U64Canonical(s[65..73]);
    I64Canonical(s[73..81]);
    I64Canonical(s[81..89]);
    var p1 := [s[0]] + s[1..33];
    var p2 := p1 + s[33..65];
    var p3 := p2 + s[65..73];
    var p4 := p3 + s[73..81];
    var p5 := p4 + s[81..89];
    var p6 := p5 + s[89..121];
    var p7 := p6 + s[121..125];
    assert s[..1] == [s[0]];
    JoinField([s[0]], s[1..33], s);
    JoinField(p1, s[33..65], s);
    JoinField(p2, s[65..73], s);
    JoinField(p3, s[73..81], s);
    JoinField(p4, s[81..89], s);
    JoinField(p5, s[89..121], s);
    JoinField(p6, s[121..125], s);
    JoinField(p7, s[125..|s|], s);
    assert s == s[..|s|] && s[125..] == s[125..|s|];
  }

  /** A zero-filled Message account reads back as uninitialized only when it was
      sized for an empty payload; otherwise the zero length prefix leaves
      trailing bytes and the read fails. */
  lemma ZeroedMessageRead(n: nat)
    ensures DecodeMessage(Zeros(MessageSpace(n))).Some? <==> n == 0
    ensures n == 0 ==> DecodeMessage(Zeros(MessageSpace(n)))
                       == Some(Message(false, ZERO_KEY, ZERO_KEY, 0, 0, 0, ZERO_KEY, []))
  {
    var z := Zeros(MessageSpace(n));
    assert z[121..125] == Zeros(4);
    LeValueOfZeros(4);
    if n == 0 {
      assert z[1..33] == ZERO_KEY && z[33..65] == ZERO_KEY && z[89..121] == ZERO_KEY;
      assert z[65..73] == Zeros(8) && z[73..81] == Zeros(8) && z[81..89] == Zeros(8);
      LeValueOfZeros(8);
      assert z[125..] == [];
    }
  }
}
