/** The instruction processor: the four operations, each given as a function
    from the account snapshots to the new snapshots or an error (the
    specification), and as a method that updates the accounts in place and is
    proved to follow it. Accounts are positional, as in the program:
    InitializeChat [initializer, chat, system program];
    SendMessage [sender, chat, message, system program];
    DeleteChat [participant, chat];
    DeleteMessage [sender, message, chat, clock sysvar]. */
module Processor {

  import opened Wrappers
  import opened Borsh
  import opened Errors
  import opened State
  import opened Accounts

  /** What the runtime supplies besides the accounts: the program id, address
      derivation (`find_program_address(seeds, program_id).0`), the rent-exempt
      minimum for a size, the clock's unix time and the clock sysvar's address. */
  datatype Host = Host(
    programId: Key,
    derive: (Key, seq<seq<Byte>>) -> Key,
    minimumBalance: nat -> U64,
    now: I64,
    clockId: Key)

  /** The seed strings "chat" and "message". */
  const CHAT_SEED: seq<Byte> := [99, 104, 97, 116]
  const MESSAGE_SEED: seq<Byte> := [109, 101, 115, 115, 97, 103, 101]

  function ChatSeeds(initializer: Key): seq<seq<Byte>>
  {
    [CHAT_SEED, initializer]
  }

  function MessageSeeds(chat: Key, index: U64): seq<seq<Byte>>
  {
    [MESSAGE_SEED, chat, U64Bytes(index)]
  }

  /** Distinct (chat, index) pairs never share message seeds, so the counter
      gives every message of a chat its own address seeds. */
  lemma MessageSeedsInjective(chat1: Key, index1: U64, chat2: Key, index2: U64)
    requires MessageSeeds(chat1, index1) == MessageSeeds(chat2, index2)
    ensures chat1 == chat2 && index1 == index2
  {
    assert MessageSeeds(chat1, index1)[2] == MessageSeeds(chat2, index2)[2];
    U64RoundTrip(index1);
    U64RoundTrip(index2);
  }

  function ChatAddress(host: Host, initializer: Key): Key
  {
    host.derive(host.programId, ChatSeeds(initializer))
  }

  function MessageAddress(host: Host, chat: Key, index: U64): Key
  {
    host.derive(host.programId, MessageSeeds(chat, index))
  }

  /** `message_count += 1` on a u64, unchecked: it wraps to 0 after 2^64 - 1. */
  function NextCount(count: U64): (r: U64)
    ensures count < U64_LIMIT - 1 ==> r == count + 1
    ensures count == U64_LIMIT - 1 ==> r == 0
  {
    (count + 1) % U64_LIMIT
  }

  /** The participant rule of SendMessage: a sender other than participant1
      takes the free second seat with its ephemeral key; otherwise the sender
      must already hold a seat. */
  function Admit(chat: Chat, sender: Key, ephemeralPublicKey: Key): (r: Result<Chat, ProgramError>)
    ensures r.Ok? <==> chat.participant2 == ZERO_KEY || IsParticipant(chat, sender)
    ensures r.Err? ==> r.error == ToProgramError(NotAuthorized)
    ensures r.Ok? ==> IsParticipant(r.value, sender)
    ensures r.Ok? && (chat.participant2 != ZERO_KEY || chat.participant1 == sender) ==> r.value == chat
    ensures r.Ok? && chat.participant2 == ZERO_KEY && chat.participant1 != sender ==>
              r.value == chat.(participant2 := sender, participant2PublicKey := ephemeralPublicKey)
  {
    if chat.participant2 == ZERO_KEY && chat.participant1 != sender then
      Ok(chat.(participant2 := sender, participant2PublicKey := ephemeralPublicKey))
    else if !IsParticipant(chat, sender) then
      Err(ToProgramError(NotAuthorized))
    else
      Ok(chat)
  }

  /** Closing an account: all its lamports go to `dest` (checked add) and every
      data byte becomes 0. */
  function Close(dest: AccountView, closed: AccountView): (r: Result<(AccountView, AccountView), ProgramError>)
    ensures r.Err? <==> dest.lamports + closed.lamports >= U64_LIMIT
    ensures r.Err? ==> r.error == ArithmeticOverflow
    ensures r.Ok? ==> r.value.0 == dest.(lamports := dest.lamports + closed.lamports)
    ensures r.Ok? ==> r.value.1 == closed.(lamports := 0, data := Zeros(|closed.data|))
  {
    if dest.lamports + closed.lamports >= U64_LIMIT then Err(ArithmeticOverflow)
    else Ok((dest.(lamports := dest.lamports + closed.lamports),
             closed.(lamports := 0, data := Zeros(|closed.data|))))
  }

  /** `close_account`: moves the lamports of the account at position `c` to
      the one at `d` and zero-fills its data; on failure nothing changes. */
  method CloseAt(accounts: seq<Account>, d: nat, c: nat) returns (r: Result<(), ProgramError>)
    requires Disjoint(accounts) && d < |accounts| && c < |accounts| && d != c
    modifies accounts[d], accounts[c]
    ensures r == Status(Close(old(Views(accounts))[d], old(Views(accounts))[c]))
    ensures Views(accounts) ==
              if r.Ok? then
                var closed := Close(old(Views(accounts))[d], old(Views(accounts))[c]).value;
                old(Views(accounts))[d := closed.0][c := closed.1]
              else old(Views(accounts))
  {
    ghost var before := Views(accounts);
    DisjointAt(accounts, d, c);
    var dest, closed := accounts[d], accounts[c];
    var destStartingLamports := dest.lamports;
    if destStartingLamports + closed.lamports >= U64_LIMIT {
      return Err(ArithmeticOverflow);
    }
    dest.lamports := destStartingLamports + closed.lamports;
    closed.lamports := 0;
    closed.data := Zeros(|closed.data|);
    r := Ok(());
    ghost var result := Close(before[d], before[c]).value;
    ghost var after := before[d := result.0][c := result.1];
    forall i | 0 <= i < |accounts|
      ensures accounts[i].View() == after[i]
    {
      if i != d && i != c {
        DisjointAt(accounts, i, d);
        DisjointAt(accounts, i, c);
      }
    }
    ViewsAre(accounts, after);
  }

  // ---------------------------------------------------------------------------
  // InitializeChat

  function InitializeChatSpec(host: Host, views: seq<AccountView>, publicKey: Key)
    : (r: Result<seq<AccountView>, ProgramError>)
    ensures |views| < 3 ==> r == Err(NotEnoughAccountKeys)
    ensures |views| >= 3 && !views[0].isSigner ==> r == Err(MissingRequiredSignature)
    ensures |views| >= 3 && views[0].isSigner && views[1].key != ChatAddress(host, views[0].key) ==>
              r == Err(InvalidAccountData)
    ensures |views| >= 3 && views[0].isSigner && views[1].key == ChatAddress(host, views[0].key) ==>
              (r.Ok? <==> CreateAccount(views[0], views[1], host.minimumBalance(CHAT_LEN), CHAT_LEN, host.programId).Ok?)
    ensures |views| >= 3 && views[0].isSigner && views[1].key == ChatAddress(host, views[0].key)
            && CreateAccount(views[0], views[1], host.minimumBalance(CHAT_LEN), CHAT_LEN, host.programId).Err? ==>
              r == Err(CreateAccountFailed)
    ensures r.Ok? ==> |views| >= 3 && views[0].isSigner && views[1].key == ChatAddress(host, views[0].key)
    ensures r.Ok? ==> |r.value| == |views| && forall i :: 2 <= i < |views| ==> r.value[i] == views[i]
    ensures r.Ok? ==> r.value[1].owner == host.programId && r.value[1].lamports == host.minimumBalance(CHAT_LEN)
    ensures r.Ok? ==> r.value[0] == views[0].(lamports := r.value[0].lamports)
    ensures r.Ok? ==> r.value[0].lamports + host.minimumBalance(CHAT_LEN) == views[0].lamports
    ensures r.Ok? ==>
              DecodeChat(r.value[1].data) ==
              Some(Chat(true, views[0].key, ZERO_KEY, publicKey, ZERO_KEY, host.now, 0, 0))
  {
    if |views| < 3 then Err(NotEnoughAccountKeys)
    else
      var initializer, chatAccount := views[0], views[1];
      if !initializer.isSigner then Err(MissingRequiredSignature)
      else if ChatAddress(host, initializer.key) != chatAccount.key then Err(InvalidAccountData)
      else
        var created :- CreateAccount(initializer, chatAccount, host.minimumBalance(CHAT_LEN), CHAT_LEN, host.programId);
        var chat := Chat(true, initializer.key, ZERO_KEY, publicKey, ZERO_KEY, host.now, 0, 0);
        ChatRoundTrip(chat);
        Ok(views[0 := created.0][1 := created.1.(data := EncodeChat(chat))])
  }

  lemma InitializeChatConservesLamports(host: Host, views: seq<AccountView>, publicKey: Key)
    requires InitializeChatSpec(host, views, publicKey).Ok?
    ensures TotalLamports(InitializeChatSpec(host, views, publicKey).value) == TotalLamports(views)
  {
    var r := InitializeChatSpec(host, views, publicKey).value;
    assert views[1].lamports == 0;
    assert r == views[0 := r[0]][1 := r[1]];
    TotalLamportsMove(views, 0, 1, r[0], r[1]);
  }

  method ProcessInitializeChat(host: Host, accounts: seq<Account>, publicKey: Key) returns (r: Result<(), ProgramError>)
    requires Disjoint(accounts)
    modifies set a | a in accounts
    ensures r == Status(InitializeChatSpec(host, old(Views(accounts)), publicKey))
    ensures Views(accounts) == if r.Ok? then InitializeChatSpec(host, old(Views(accounts)), publicKey).value
                               else old(Views(accounts))
  {
    ghost var before := Views(accounts);
    if |accounts| < 3 {
      return Err(NotEnoughAccountKeys);
    }
    var initializer, chatAccount := accounts[0], accounts[1];
    if !initializer.isSigner {
      return Err(MissingRequiredSignature);
    }
    if ChatAddress(host, initializer.key) != chatAccount.key {
      return Err(InvalidAccountData);
    }
    ghost var created := CreateAccount(before[0], before[1], host.minimumBalance(CHAT_LEN), CHAT_LEN, host.programId);
    r := CreateAccountAt(accounts, 0, 1, host.minimumBalance(CHAT_LEN), CHAT_LEN, host.programId);
    if r.Err? {
      return;
    }
    ghost var funded := Views(accounts);
    var chat := Chat(true, initializer.key, ZERO_KEY, publicKey, ZERO_KEY, host.now, 0, 0);
    WriteData(accounts, 1, EncodeChat(chat));
    InitializeChatChain(host, before, publicKey, created.value, funded, Views(accounts));
  }

  /** The two writes of an initialization, snapshot by snapshot: the chat
      account created and paid for, then the new chat written into it, make
      up `InitializeChatSpec`. */
  lemma InitializeChatChain(host: Host, views: seq<AccountView>, publicKey: Key, created: (AccountView, AccountView),
                            funded: seq<AccountView>, final: seq<AccountView>)
    requires |views| >= 3 && views[0].isSigner && ChatAddress(host, views[0].key) == views[1].key
    requires CreateAccount(views[0], views[1], host.minimumBalance(CHAT_LEN), CHAT_LEN, host.programId) == Ok(created)
    requires funded == views[0 := created.0][1 := created.1]
    requires final == funded[1 := funded[1].(data := Overwrite(funded[1].data,
                        EncodeChat(Chat(true, views[0].key, ZERO_KEY, publicKey, ZERO_KEY, host.now, 0, 0))))]
    ensures InitializeChatSpec(host, views, publicKey) == Ok(final)
  {
    var chat := Chat(true, views[0].key, ZERO_KEY, publicKey, ZERO_KEY, host.now, 0, 0);
    assert funded[1].data == Zeros(CHAT_LEN);
    assert Overwrite(funded[1].data, EncodeChat(chat)) == EncodeChat(chat);
    assert final == views[0 := created.0][1 := created.1.(data := EncodeChat(chat))];
  }

  // ---------------------------------------------------------------------------
  // SendMessage

  function SendMessageSpec(host: Host, views: seq<AccountView>, encryptedData: ByteVec,
                           ephemeralPublicKey: Key, timestamp: I64, expiresAt: I64)
    : (r: Result<seq<AccountView>, ProgramError>)
    ensures |views| < 4 ==> r == Err(NotEnoughAccountKeys)
    ensures |views| >= 4 && !views[0].isSigner ==> r == Err(MissingRequiredSignature)
    ensures |views| >= 4 && views[0].isSigner && |encryptedData| > MAX_MESSAGE_SIZE ==>
              r == Err(ToProgramError(DataTooLarge))
    ensures |views| >= 4 && views[0].isSigner && |encryptedData| <= MAX_MESSAGE_SIZE
            && views[1].owner != host.programId ==>
              r == Err(ToProgramError(InvalidAccountOwner))
    ensures |views| >= 4 && views[0].isSigner && |encryptedData| <= MAX_MESSAGE_SIZE
            && views[1].owner == host.programId && DecodeChat(views[1].data).None? ==>
              r == Err(BorshIoError)
    ensures |views| >= 4 && views[0].isSigner && |encryptedData| <= MAX_MESSAGE_SIZE
            && views[1].owner == host.programId && DecodeChat(views[1].data).Some?
            && !DecodeChat(views[1].data).value.isInitialized ==>
              r == Err(ToProgramError(NotInitialized))
    ensures |views| >= 4 && views[0].isSigner && |encryptedData| <= MAX_MESSAGE_SIZE
            && views[1].owner == host.programId && DecodeChat(views[1].data).Some?
            && DecodeChat(views[1].data).value.isInitialized
            && Admit(DecodeChat(views[1].data).value, views[0].key, ephemeralPublicKey).Err? ==>
              r == Err(ToProgramError(NotAuthorized))
    ensures |views| >= 4 && views[0].isSigner && |encryptedData| <= MAX_MESSAGE_SIZE
            && views[1].owner == host.programId && DecodeChat(views[1].data).Some?
            && DecodeChat(views[1].data).value.isInitialized
            && Admit(DecodeChat(views[1].data).value, views[0].key, ephemeralPublicKey).Ok?
            && views[2].key != MessageAddress(host, views[1].key, DecodeChat(views[1].data).value.messageCount) ==>
              r == Err(InvalidAccountData)
    ensures r.Ok? ==>
              && |views| >= 4 && views[0].isSigner && |encryptedData| <= MAX_MESSAGE_SIZE
              && views[1].owner == host.programId
              && DecodeChat(views[1].data).Some?
              && var chat := DecodeChat(views[1].data).value;
              && chat.isInitialized
              && Admit(chat, views[0].key, ephemeralPublicKey).Ok?
              && views[2].key == MessageAddress(host, views[1].key, chat.messageCount)
              && var joined := Admit(chat, views[0].key, ephemeralPublicKey).value;
              && var rent := host.minimumBalance(MessageSpace(|encryptedData|));
              && |r.value| == |views|
              && (forall i :: 3 <= i < |views| ==> r.value[i] == views[i])
              && r.value[0] == views[0].(lamports := r.value[0].lamports)
              && r.value[0].lamports + rent == views[0].lamports
              && r.value[1].key == views[1].key && r.value[1].owner == views[1].owner
              && r.value[1].lamports == views[1].lamports
              && DecodeChat(r.value[1].data) ==
                 Some(joined.(messageCount := NextCount(chat.messageCount), lastMessageAt := timestamp))
              && r.value[2].owner == host.programId && r.value[2].lamports == rent
              && DecodeMessage(r.value[2].data) ==
                 Some(Message(true, views[1].key, views[0].key, chat.messageCount, timestamp, expiresAt,
                              ephemeralPublicKey, encryptedData))
  {
    if |views| < 4 then Err(NotEnoughAccountKeys)
    else
      var sender, chatAccount, messageAccount := views[0], views[1], views[2];
      if !sender.isSigner then Err(MissingRequiredSignature)
      else if |encryptedData| > MAX_MESSAGE_SIZE then Err(ToProgramError(DataTooLarge))
      else if chatAccount.owner != host.programId then Err(ToProgramError(InvalidAccountOwner))
      else match DecodeChat(chatAccount.data)
        case None => Err(BorshIoError)
        case Some(chat) =>
          if !chat.isInitialized then Err(ToProgramError(NotInitialized))
          else
            var joined :- Admit(chat, sender.key, ephemeralPublicKey);
            if MessageAddress(host, chatAccount.key, joined.messageCount) != messageAccount.key then
              Err(InvalidAccountData)
            else
              DeliverEffects(host, views, joined, encryptedData, ephemeralPublicKey, timestamp, expiresAt);
              DeliverDecodes(host, views, joined, encryptedData, ephemeralPublicKey, timestamp, expiresAt);
              Deliver(host, views, joined, encryptedData, ephemeralPublicKey, timestamp, expiresAt)
  }

  /** The effects of a send once every check has passed: the message account
      (position 2) is created, paid for by the sender (position 0) and holds
      message number `chat.messageCount`; the chat account (position 1) holds
      `chat` with the counter advanced and the last-message time set. */
  function Deliver(host: Host, views: seq<AccountView>, chat: Chat, encryptedData: ByteVec,
                   ephemeralPublicKey: Key, timestamp: I64, expiresAt: I64)
    : (r: Result<seq<AccountView>, ProgramError>)
    requires |views| >= 3
    ensures r.Err? ==> r.error == CreateAccountFailed
    ensures r.Ok? <==> CreateAccount(views[0], views[2], host.minimumBalance(MessageSpace(|encryptedData|)),
                                     MessageSpace(|encryptedData|), host.programId).Ok?
    ensures r.Ok? ==> |r.value| == |views|
  {
    var space := MessageSpace(|encryptedData|);
    var created :- CreateAccount(views[0], views[2], host.minimumBalance(space), space, host.programId);
    var message := Message(true, views[1].key, views[0].key, chat.messageCount, timestamp, expiresAt,
                           ephemeralPublicKey, encryptedData);
    var updated := chat.(messageCount := NextCount(chat.messageCount), lastMessageAt := timestamp);
    Ok(views[0 := created.0]
            [2 := created.1.(data := EncodeMessage(message))]
            [1 := views[1].(data := EncodeChat(updated))])
  }

  /** What a successful `Deliver` leaves behind, account by account: the
      sender paid the rent of the new message account, which is now owned by
      the program; the chat account keeps its key, owner and lamports; no
      other account changed. */
  lemma DeliverEffects(host: Host, views: seq<AccountView>, chat: Chat, encryptedData: ByteVec,
                       ephemeralPublicKey: Key, timestamp: I64, expiresAt: I64)
    requires |views| >= 3
    ensures var r := Deliver(host, views, chat, encryptedData, ephemeralPublicKey, timestamp, expiresAt);
            r.Ok? ==>
              && var rent := host.minimumBalance(MessageSpace(|encryptedData|));
              && (forall i :: 3 <= i < |views| ==> r.value[i] == views[i])
              && r.value[0] == views[0].(lamports := r.value[0].lamports)
              && r.value[0].lamports + rent == views[0].lamports
              && r.value[1].key == views[1].key && r.value[1].owner == views[1].owner
              && r.value[1].lamports == views[1].lamports
              && r.value[2].key == views[2].key && r.value[2].isSigner == views[2].isSigner
              && r.value[2].owner == host.programId && r.value[2].lamports == rent
              && views[2].lamports == 0
  {
    var r := Deliver(host, views, chat, encryptedData, ephemeralPublicKey, timestamp, expiresAt);
    if r.Ok? {
      var space := MessageSpace(|encryptedData|);
      var created := CreateAccount(views[0], views[2], host.minimumBalance(space), space, host.programId).value;
      assert r.value[0] == created.0 && r.value[2].lamports == created.1.lamports;
    }
  }

  /** A delivery only moves the rent from the sender to the new message
      account. */
  lemma DeliverConservesLamports(host: Host, views: seq<AccountView>, chat: Chat, encryptedData: ByteVec,
                                 ephemeralPublicKey: Key, timestamp: I64, expiresAt: I64)
    requires |views| >= 3
    requires Deliver(host, views, chat, encryptedData, ephemeralPublicKey, timestamp, expiresAt).Ok?
    ensures TotalLamports(Deliver(host, views, chat, encryptedData, ephemeralPublicKey, timestamp, expiresAt).value)
            == TotalLamports(views)
  {
    var r := Deliver(host, views, chat, encryptedData, ephemeralPublicKey, timestamp, expiresAt).value;
    DeliverEffects(host, views, chat, encryptedData, ephemeralPublicKey, timestamp, expiresAt);
    var moved := views[0 := r[0]][2 := r[2]];
    TotalLamportsMove(views, 0, 2, r[0], r[2]);
    TotalLamportsAgree(r, moved);
  }

  /** After a successful `Deliver` the message account decodes to the new
      message, numbered by the chat's counter before the send, and the chat
      account decodes to the chat with the counter advanced. */
  lemma DeliverDecodes(host: Host, views: seq<AccountView>, chat: Chat, encryptedData: ByteVec,
                       ephemeralPublicKey: Key, timestamp: I64, expiresAt: I64)
    requires |views| >= 3
    ensures var r := Deliver(host, views, chat, encryptedData, ephemeralPublicKey, timestamp, expiresAt);
            r.Ok? ==>
              && DecodeChat(r.value[1].data) ==
                 Some(chat.(messageCount := NextCount(chat.messageCount), lastMessageAt := timestamp))
              && DecodeMessage(r.value[2].data) ==
                 Some(Message(true, views[1].key, views[0].key, chat.messageCount, timestamp, expiresAt,
                              ephemeralPublicKey, encryptedData))
  {
    var message := Message(true, views[1].key, views[0].key, chat.messageCount, timestamp, expiresAt,
                           ephemeralPublicKey, encryptedData);
    var updated := chat.(messageCount := NextCount(chat.messageCount), lastMessageAt := timestamp);
    var r := Deliver(host, views, chat, encryptedData, ephemeralPublicKey, timestamp, expiresAt);
    if r.Ok? {
      assert r.value[1].data == EncodeChat(updated) && r.value[2].data == EncodeMessage(message);
      MessageRoundTrip(message);
      ChatRoundTrip(updated);
    }
  }

  method DeliverAt(host: Host, accounts: seq<Account>, chat: Chat, encryptedData: ByteVec,
                   ephemeralPublicKey: Key, timestamp: I64, expiresAt: I64)
    returns (r: Result<(), ProgramError>)
    requires Disjoint(accounts) && |accounts| >= 3 && |accounts[1].data| == CHAT_LEN
    modifies set a | a in accounts
    ensures r == Status(Deliver(host, old(Views(accounts)), chat, encryptedData, ephemeralPublicKey, timestamp, expiresAt))
    ensures Views(accounts) ==
              if r.Ok? then Deliver(host, old(Views(accounts)), chat, encryptedData, ephemeralPublicKey, timestamp, expiresAt).value
              else old(Views(accounts))
  {
    ghost var before := Views(accounts);
    var space := MessageSpace(|encryptedData|);
    ghost var created := CreateAccount(before[0], before[2], host.minimumBalance(space), space, host.programId);
    r := CreateAccountAt(accounts, 0, 2, host.minimumBalance(space), space, host.programId);
    if r.Err? {
      return;
    }
    ghost var funded := Views(accounts);
    var message := Message(true, accounts[1].key, accounts[0].key, chat.messageCount, timestamp, expiresAt,
                           ephemeralPublicKey, encryptedData);
    WriteData(accounts, 2, EncodeMessage(message));
    ghost var written := Views(accounts);
    var updated := chat.(messageCount := NextCount(chat.messageCount), lastMessageAt := timestamp);
    WriteData(accounts, 1, EncodeChat(updated));
    DeliverChain(host, before, chat, encryptedData, ephemeralPublicKey, timestamp, expiresAt,
                 created.value, funded, written, Views(accounts));
  }

  /** The three writes of a send, account snapshot by account snapshot: the
      message account created and paid for, the message written into it, and
      the advanced chat written back, make up `Deliver`. */
  lemma DeliverChain(host: Host, views: seq<AccountView>, chat: Chat, encryptedData: ByteVec,
                     ephemeralPublicKey: Key, timestamp: I64, expiresAt: I64, created: (AccountView, AccountView),
                     funded: seq<AccountView>, written: seq<AccountView>, final: seq<AccountView>)
    requires |views| >= 3 && |views[1].data| == CHAT_LEN
    requires CreateAccount(views[0], views[2], host.minimumBalance(MessageSpace(|encryptedData|)),
                           MessageSpace(|encryptedData|), host.programId) == Ok(created)
    requires funded == views[0 := created.0][2 := created.1]
    requires written == funded[2 := funded[2].(data := Overwrite(funded[2].data,
                          EncodeMessage(Message(true, views[1].key, views[0].key, chat.messageCount,
                                                timestamp, expiresAt, ephemeralPublicKey, encryptedData))))]
    requires final == written[1 := written[1].(data := Overwrite(written[1].data,
                        EncodeChat(chat.(messageCount := NextCount(chat.messageCount), lastMessageAt := timestamp))))]
    ensures Deliver(host, views, chat, encryptedData, ephemeralPublicKey, timestamp, expiresAt) == Ok(final)
  {
    var message := Message(true, views[1].key, views[0].key, chat.messageCount,
                           timestamp, expiresAt, ephemeralPublicKey, encryptedData);
    var updated := chat.(messageCount := NextCount(chat.messageCount), lastMessageAt := timestamp);
    assert funded[2].data == Zeros(MessageSpace(|encryptedData|));
    assert Overwrite(funded[2].data, EncodeMessage(message)) == EncodeMessage(message);
    assert written == views[0 := created.0][2 := created.1.(data := EncodeMessage(message))];
    assert written[1] == views[1];
    assert Overwrite(written[1].data, EncodeChat(updated)) == EncodeChat(updated);
  }

  lemma SendMessageConservesLamports(host: Host, views: seq<AccountView>, encryptedData: ByteVec,
                                     ephemeralPublicKey: Key, timestamp: I64, expiresAt: I64)
    requires SendMessageSpec(host, views, encryptedData, ephemeralPublicKey, timestamp, expiresAt).Ok?
    ensures TotalLamports(SendMessageSpec(host, views, encryptedData, ephemeralPublicKey, timestamp, expiresAt).value)
            == TotalLamports(views)
  {
    var chat := Admit(DecodeChat(views[1].data).value, views[0].key, ephemeralPublicKey).value;
    SendMessageDelivers(host, views, encryptedData, ephemeralPublicKey, timestamp, expiresAt, chat);
    DeliverConservesLamports(host, views, chat, encryptedData, ephemeralPublicKey, timestamp, expiresAt);
  }

  method ProcessSendMessage(host: Host, accounts: seq<Account>, encryptedData: ByteVec,
                            ephemeralPublicKey: Key, timestamp: I64, expiresAt: I64)
    returns (r: Result<(), ProgramError>)
    requires Disjoint(accounts)
    modifies set a | a in accounts
    ensures r == Status(SendMessageSpec(host, old(Views(accounts)), encryptedData, ephemeralPublicKey, timestamp, expiresAt))
    ensures Views(accounts) ==
              if r.Ok? then SendMessageSpec(host, old(Views(accounts)), encryptedData, ephemeralPublicKey, timestamp, expiresAt).value
              else old(Views(accounts))
  {
    if |accounts| < 4 {
      return Err(NotEnoughAccountKeys);
    }
    var sender, chatAccount, messageAccount := accounts[0], accounts[1], accounts[2];
    if !sender.isSigner {
      return Err(MissingRequiredSignature);
    }
    if |encryptedData| > MAX_MESSAGE_SIZE {
      return Err(ToProgramError(DataTooLarge));
    }
    if chatAccount.owner != host.programId {
      return Err(ToProgramError(InvalidAccountOwner));
    }
    var decoded := DecodeChat(chatAccount.data);
    if decoded.None? {
      return Err(BorshIoError);
    }
    var chat := decoded.value;
    if !chat.isInitialized {
      return Err(ToProgramError(NotInitialized));
    }
    if chat.participant2 == ZERO_KEY && chat.participant1 != sender.key {
      chat := chat.(participant2 := sender.key, participant2PublicKey := ephemeralPublicKey);
    } else if !IsParticipant(chat, sender.key) {
      return Err(ToProgramError(NotAuthorized));
    }
    var messageIndex := chat.messageCount;
    if MessageAddress(host, chatAccount.key, messageIndex) != messageAccount.key {
      return Err(InvalidAccountData);
    }
    assert chat == Admit(decoded.value, sender.key, ephemeralPublicKey).value;
    SendMessageDelivers(host, Views(accounts), encryptedData, ephemeralPublicKey, timestamp, expiresAt, chat);
    r := DeliverAt(host, accounts, chat, encryptedData, ephemeralPublicKey, timestamp, expiresAt);
  }

  /** Once every check of `send_message` has passed, the instruction is exactly
      `Deliver` with the admitted chat. */
  lemma SendMessageDelivers(host: Host, views: seq<AccountView>, encryptedData: ByteVec,
                            ephemeralPublicKey: Key, timestamp: I64, expiresAt: I64, chat: Chat)
    requires |views| >= 4 && views[0].isSigner && |encryptedData| <= MAX_MESSAGE_SIZE
    requires views[1].owner == host.programId
    requires DecodeChat(views[1].data).Some? && DecodeChat(views[1].data).value.isInitialized
    requires Admit(DecodeChat(views[1].data).value, views[0].key, ephemeralPublicKey) == Ok(chat)
    requires MessageAddress(host, views[1].key, chat.messageCount) == views[2].key
    ensures SendMessageSpec(host, views, encryptedData, ephemeralPublicKey, timestamp, expiresAt)
            == Deliver(host, views, chat, encryptedData, ephemeralPublicKey, timestamp, expiresAt)
  {
  }

  /** Once every check of `send_message` has passed, the send succeeds exactly
      when `create_account` accepts the sender and the message account, and
      otherwise fails with its error. */
  lemma SendMessageOutcome(host: Host, views: seq<AccountView>, encryptedData: ByteVec,
                           ephemeralPublicKey: Key, timestamp: I64, expiresAt: I64)
    requires |views| >= 4 && views[0].isSigner && |encryptedData| <= MAX_MESSAGE_SIZE
    requires views[1].owner == host.programId
    requires DecodeChat(views[1].data).Some? && DecodeChat(views[1].data).value.isInitialized
    requires Admit(DecodeChat(views[1].data).value, views[0].key, ephemeralPublicKey).Ok?
    requires MessageAddress(host, views[1].key, DecodeChat(views[1].data).value.messageCount) == views[2].key
    ensures var r := SendMessageSpec(host, views, encryptedData, ephemeralPublicKey, timestamp, expiresAt);
            && (r.Ok? <==> CreateAccount(views[0], views[2], host.minimumBalance(MessageSpace(|encryptedData|)),
                                         MessageSpace(|encryptedData|), host.programId).Ok?)
            && (r.Err? ==> r.error == CreateAccountFailed)
  {
    var chat := Admit(DecodeChat(views[1].data).value, views[0].key, ephemeralPublicKey).value;
    SendMessageDelivers(host, views, encryptedData, ephemeralPublicKey, timestamp, expiresAt, chat);
  }

  // ---------------------------------------------------------------------------
  // DeleteChat

  function DeleteChatSpec(host: Host, views: seq<AccountView>): (r: Result<seq<AccountView>, ProgramError>)
    ensures |views| < 2 ==> r == Err(NotEnoughAccountKeys)
    ensures |views| >= 2 && !views[0].isSigner ==> r == Err(MissingRequiredSignature)
    ensures |views| >= 2 && views[0].isSigner && views[1].owner != host.programId ==>
              r == Err(ToProgramError(InvalidAccountOwner))
    ensures |views| >= 2 && views[0].isSigner && views[1].owner == host.programId
            && DecodeChat(views[1].data).None? ==>
              r == Err(BorshIoError)
    ensures |views| >= 2 && views[0].isSigner && views[1].owner == host.programId
            && DecodeChat(views[1].data).Some? && !DecodeChat(views[1].data).value.isInitialized ==>
              r == Err(ToProgramError(NotInitialized))
    ensures |views| >= 2 && views[0].isSigner && views[1].owner == host.programId
            && DecodeChat(views[1].data).Some? && DecodeChat(views[1].data).value.isInitialized
            && !IsParticipant(DecodeChat(views[1].data).value, views[0].key) ==>
              r == Err(ToProgramError(NotAuthorized))
    ensures |views| >= 2 && views[0].isSigner && views[1].owner == host.programId
            && DecodeChat(views[1].data).Some? && DecodeChat(views[1].data).value.isInitialized
            && IsParticipant(DecodeChat(views[1].data).value, views[0].key) ==>
              (r.Ok? <==> views[0].lamports + views[1].lamports < U64_LIMIT)
              && (r.Err? ==> r.error == ArithmeticOverflow)
    ensures r.Ok? ==>
              && |views| >= 2 && views[0].isSigner && views[1].owner == host.programId
              && DecodeChat(views[1].data).Some?
              && DecodeChat(views[1].data).value.isInitialized
              && IsParticipant(DecodeChat(views[1].data).value, views[0].key)
              && |r.value| == |views|
              && (forall i :: 2 <= i < |views| ==> r.value[i] == views[i])
              && r.value[0] == views[0].(lamports := r.value[0].lamports)
              && r.value[0].lamports == views[0].lamports + views[1].lamports
              && r.value[1] == views[1].(lamports := 0, data := Zeros(|views[1].data|))
  {
    if |views| < 2 then Err(NotEnoughAccountKeys)
    else
      var participant, chatAccount := views[0], views[1];
      if !participant.isSigner then Err(MissingRequiredSignature)
      else if chatAccount.owner != host.programId then Err(ToProgramError(InvalidAccountOwner))
      else match DecodeChat(chatAccount.data)
        case None => Err(BorshIoError)
        case Some(chat) =>
          if !chat.isInitialized then Err(ToProgramError(NotInitialized))
          else if !IsParticipant(chat, participant.key) then Err(ToProgramError(NotAuthorized))
          else
            var closed :- Close(participant, chatAccount);
            Ok(views[0 := closed.0][1 := closed.1])
  }

  lemma DeleteChatConservesLamports(host: Host, views: seq<AccountView>)
    requires DeleteChatSpec(host, views).Ok?
    ensures TotalLamports(DeleteChatSpec(host, views).value) == TotalLamports(views)
  {
    var r := DeleteChatSpec(host, views).value;
    assert r == views[0 := r[0]][1 := r[1]];
    TotalLamportsMove(views, 0, 1, r[0], r[1]);
  }

  method ProcessDeleteChat(host: Host, accounts: seq<Account>) returns (r: Result<(), ProgramError>)
    requires Disjoint(accounts)
    modifies set a | a in accounts
    ensures r == Status(DeleteChatSpec(host, old(Views(accounts))))
    ensures Views(accounts) == if r.Ok? then DeleteChatSpec(host, old(Views(accounts))).value
                               else old(Views(accounts))
  {
    if |accounts| < 2 {
      return Err(NotEnoughAccountKeys);
    }
    var participant, chatAccount := accounts[0], accounts[1];
    if !participant.isSigner {
      return Err(MissingRequiredSignature);
    }
    if chatAccount.owner != host.programId {
      return Err(ToProgramError(InvalidAccountOwner));
    }
    var decoded := DecodeChat(chatAccount.data);
    if decoded.None? {
      return Err(BorshIoError);
    }
    var chat := decoded.value;
    if !chat.isInitialized {
      return Err(ToProgramError(NotInitialized));
    }
    if !IsParticipant(chat, participant.key) {
      return Err(ToProgramError(NotAuthorized));
    }
    r := CloseAt(accounts, 0, 1);
  }

  // ---------------------------------------------------------------------------
  // DeleteMessage

  function DeleteMessageSpec(host: Host, views: seq<AccountView>): (r: Result<seq<AccountView>, ProgramError>)
    ensures |views| < 4 ==> r == Err(NotEnoughAccountKeys)
    ensures |views| >= 4 && !views[0].isSigner ==> r == Err(MissingRequiredSignature)
    ensures |views| >= 4 && views[0].isSigner && views[1].owner != host.programId ==>
              r == Err(ToProgramError(InvalidAccountOwner))
    ensures |views| >= 4 && views[0].isSigner && views[1].owner == host.programId
            && DecodeMessage(views[1].data).None? ==>
              r == Err(BorshIoError)
    ensures |views| >= 4 && views[0].isSigner && views[1].owner == host.programId
            && DecodeMessage(views[1].data).Some? && !DecodeMessage(views[1].data).value.isInitialized ==>
              r == Err(ToProgramError(NotInitialized))
    ensures |views| >= 4 && views[0].isSigner && views[1].owner == host.programId
            && DecodeMessage(views[1].data).Some? && DecodeMessage(views[1].data).value.isInitialized ==>
              && (DecodeMessage(views[1].data).value.chat != views[2].key ==> r == Err(InvalidAccountData))
              && (DecodeMessage(views[1].data).value.chat == views[2].key
                  && DecodeMessage(views[1].data).value.sender != views[0].key ==>
                    r == Err(ToProgramError(NotAuthorized)))
              && (DecodeMessage(views[1].data).value.chat == views[2].key
                  && DecodeMessage(views[1].data).value.sender == views[0].key
                  && views[3].key != host.clockId ==>
                    r == Err(InvalidArgument))
              && (DecodeMessage(views[1].data).value.chat == views[2].key
                  && DecodeMessage(views[1].data).value.sender == views[0].key
                  && views[3].key == host.clockId ==>
                    (r.Ok? <==> views[0].lamports + views[1].lamports < U64_LIMIT)
                    && (r.Err? ==> r.error == ArithmeticOverflow))
    ensures r.Ok? ==>
              && |views| >= 4 && views[0].isSigner && views[1].owner == host.programId
              && DecodeMessage(views[1].data).Some?
              && DecodeMessage(views[1].data).value.isInitialized
              && DecodeMessage(views[1].data).value.chat == views[2].key
              && DecodeMessage(views[1].data).value.sender == views[0].key
              && views[3].key == host.clockId
              && |r.value| == |views|
              && (forall i :: 2 <= i < |views| ==> r.value[i] == views[i])
              && r.value[0] == views[0].(lamports := r.value[0].lamports)
              && r.value[0].lamports == views[0].lamports + views[1].lamports
              && r.value[1] == views[1].(lamports := 0, data := Zeros(|views[1].data|))
  {
    if |views| < 4 then Err(NotEnoughAccountKeys)
    else
      var sender, messageAccount, chatAccount, clockAccount := views[0], views[1], views[2], views[3];
      if !sender.isSigner then Err(MissingRequiredSignature)
      else if messageAccount.owner != host.programId then Err(ToProgramError(InvalidAccountOwner))
      else match DecodeMessage(messageAccount.data)
        case None => Err(BorshIoError)
        case Some(message) =>
          if !message.isInitialized then Err(ToProgramError(NotInitialized))
          else if message.chat != chatAccount.key then Err(InvalidAccountData)
          else if message.sender != sender.key then Err(ToProgramError(NotAuthorized))
          else if clockAccount.key != host.clockId then Err(InvalidArgument)
          else
            var closed :- Close(sender, messageAccount);
            Ok(views[0 := closed.0][1 := closed.1])
  }

  /** The clock is read only to log an expired message: the outcome of a
      deletion never depends on the time. */
  lemma DeleteMessageIgnoresExpiry(host: Host, views: seq<AccountView>, now: I64)
    ensures DeleteMessageSpec(host.(now := now), views) == DeleteMessageSpec(host, views)
  {
  }

  lemma DeleteMessageConservesLamports(host: Host, views: seq<AccountView>)
    requires DeleteMessageSpec(host, views).Ok?
    ensures TotalLamports(DeleteMessageSpec(host, views).value) == TotalLamports(views)
  {
    var r := DeleteMessageSpec(host, views).value;
    assert r == views[0 := r[0]][1 := r[1]];
    TotalLamportsMove(views, 0, 1, r[0], r[1]);
  }

  method ProcessDeleteMessage(host: Host, accounts: seq<Account>) returns (r: Result<(), ProgramError>)
    requires Disjoint(accounts)
    modifies set a | a in accounts
    ensures r == Status(DeleteMessageSpec(host, old(Views(accounts))))
    ensures Views(accounts) == if r.Ok? then DeleteMessageSpec(host, old(Views(accounts))).value
                               else old(Views(accounts))
  {
    if |accounts| < 4 {
      return Err(NotEnoughAccountKeys);
    }
    var sender, messageAccount, chatAccount, clockAccount := accounts[0], accounts[1], accounts[2], accounts[3];
    if !sender.isSigner {
      return Err(MissingRequiredSignature);
    }
    if messageAccount.owner != host.programId {
      return Err(ToProgramError(InvalidAccountOwner));
    }
    var decoded := DecodeMessage(messageAccount.data);
    if decoded.None? {
      return Err(BorshIoError);
    }
    var message := decoded.value;
    if !message.isInitialized {
      return Err(ToProgramError(NotInitialized));
    }
    if message.chat != chatAccount.key {
      return Err(InvalidAccountData);
    }
    if message.sender != sender.key {
      return Err(ToProgramError(NotAuthorized));
    }
    if clockAccount.key != host.clockId {
      return Err(InvalidArgument);
    }
    // Only logged by the program ("auto-deleting"); it does not change the outcome.
    var expired := IsExpired(message, host.now);
    r := CloseAt(accounts, 0, 1);
  }
}
