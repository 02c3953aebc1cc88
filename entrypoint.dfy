/** `process_instruction`: decode the instruction data, then hand the accounts
    to the matching processor operation. */
module Entrypoint {

  import opened Wrappers
  import opened Borsh
  import opened Errors
  import opened Instruction
  import opened Accounts
  import opened Processor

  /** The processor operation an instruction selects. */
  function Execute(host: Host, views: seq<AccountView>, ins: Instruction): Result<seq<AccountView>, ProgramError>
  {
    match ins
    case InitializeChat(publicKey) => InitializeChatSpec(host, views, publicKey)
    case SendMessage(encryptedData, ephemeralPublicKey, timestamp, expiresAt) =>
      SendMessageSpec(host, views, encryptedData, ephemeralPublicKey, timestamp, expiresAt)
    case DeleteChat => DeleteChatSpec(host, views)
    case DeleteMessage => DeleteMessageSpec(host, views)
  }

  /** Undecodable instruction data fails with `InvalidInstructionData` before
      any account is looked at. */
  function ProcessInstructionSpec(host: Host, views: seq<AccountView>, data: seq<Byte>)
    : (r: Result<seq<AccountView>, ProgramError>)
    ensures DecodeInstruction(data).None? ==> r == Err(InvalidInstructionData)
    ensures DecodeInstruction(data).Some? ==> r == Execute(host, views, DecodeInstruction(data).value)
  {
    match DecodeInstruction(data)
    case None => Err(InvalidInstructionData)
    case Some(ins) => Execute(host, views, ins)
  }

  /** Every operation moves lamports between the accounts it is given and
      never creates or destroys them. */
  lemma ProcessInstructionConservesLamports(host: Host, views: seq<AccountView>, data: seq<Byte>)
    requires ProcessInstructionSpec(host, views, data).Ok?
    ensures TotalLamports(ProcessInstructionSpec(host, views, data).value) == TotalLamports(views)
  {
    match DecodeInstruction(data).value
    case InitializeChat(publicKey) => InitializeChatConservesLamports(host, views, publicKey);
    case SendMessage(encryptedData, ephemeralPublicKey, timestamp, expiresAt) =>
      SendMessageConservesLamports(host, views, encryptedData, ephemeralPublicKey, timestamp, expiresAt);
    case DeleteChat => DeleteChatConservesLamports(host, views);
    case DeleteMessage => DeleteMessageConservesLamports(host, views);
  }

  /** A client that encodes an instruction gets exactly that operation run. */
  lemma ProcessEncoded(host: Host, views: seq<AccountView>, ins: Instruction)
    ensures ProcessInstructionSpec(host, views, EncodeInstruction(ins)) == Execute(host, views, ins)
  {
    InstructionRoundTrip(ins);
  }

  /** Instruction data with an unknown tag or nothing at all is refused with
      the accounts untouched. */
  lemma UnknownTagRejected(host: Host, views: seq<AccountView>, data: seq<Byte>)
    requires |data| == 0 || data[0] >= 4
    ensures ProcessInstructionSpec(host, views, data) == Err(InvalidInstructionData)
  {
  }

  method ProcessInstruction(host: Host, accounts: seq<Account>, data: seq<Byte>) returns (r: Result<(), ProgramError>)
    requires Disjoint(accounts)
    modifies set a | a in accounts
    ensures r == Status(ProcessInstructionSpec(host, old(Views(accounts)), data))
    ensures Views(accounts) == if r.Ok? then ProcessInstructionSpec(host, old(Views(accounts)), data).value
                               else old(Views(accounts))
  {
    var decoded := DecodeInstruction(data);
    if decoded.None? {
      return Err(InvalidInstructionData);
    }
    match decoded.value {
      case InitializeChat(publicKey) =>
        r := ProcessInitializeChat(host, accounts, publicKey);
      case SendMessage(encryptedData, ephemeralPublicKey, timestamp, expiresAt) =>
        r := ProcessSendMessage(host, accounts, encryptedData, ephemeralPublicKey, timestamp, expiresAt);
      case DeleteChat =>
        r := ProcessDeleteChat(host, accounts);
      case DeleteMessage =>
        r := ProcessDeleteMessage(host, accounts);
    }
  }
}
