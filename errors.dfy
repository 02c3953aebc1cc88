/** The program's error taxonomy (`WhisperChainError`) and the host's `ProgramError`. */
module Errors {

  import opened Wrappers

  /** The eight domain errors, in declaration order. */
  datatype WhisperChainError =
    | InvalidInstruction
    | NotAuthorized
    | NotInitialized
    | AlreadyInitialized
    | InvalidAccountOwner
    | MessageExpired
    | InvalidPublicKey
    | DataTooLarge

  /** The host's error type, restricted to the variants this program can return.
      `CreateAccountFailed` stands for any refusal by the system program's
      `create_account`; `BorshIoError` for any failed Borsh read or write. */
  datatype ProgramError =
    | Custom(code: nat)
    | InvalidArgument
    | InvalidInstructionData
    | InvalidAccountData
    | NotEnoughAccountKeys
    | MissingRequiredSignature
    | ArithmeticOverflow
    | BorshIoError
    | CreateAccountFailed

  /** The discriminant `e as u32`: the variant's position in the declaration. */
  function Code(e: WhisperChainError): nat
  {
    match e
    case InvalidInstruction => 0
    case NotAuthorized => 1
    case NotInitialized => 2
    case AlreadyInitialized => 3
    case InvalidAccountOwner => 4
    case MessageExpired => 5
    case InvalidPublicKey => 6
    case DataTooLarge => 7
  }

  /** The variant whose discriminant is `code`: the inverse of `Code`. */
  function FromCode(code: nat): (r: Option<WhisperChainError>)
    ensures r.Some? <==> code < 8
    ensures r.Some? ==> Code(r.value) == code
  {
    if code == 0 then Some(InvalidInstruction)
    else if code == 1 then Some(NotAuthorized)
    else if code == 2 then Some(NotInitialized)
    else if code == 3 then Some(AlreadyInitialized)
    else if code == 4 then Some(InvalidAccountOwner)
    else if code == 5 then Some(MessageExpired)
    else if code == 6 then Some(InvalidPublicKey)
    else if code == 7 then Some(DataTooLarge)
    else None
  }

  /** `impl From<WhisperChainError> for ProgramError`. */
  function ToProgramError(e: WhisperChainError): (r: ProgramError)
    ensures r.Custom? && r.code < 8
    ensures FromCode(r.code) == Some(e)
  {
    Custom(Code(e))
  }

  /** Distinct domain errors reach the host as distinct custom codes. */
  lemma ToProgramErrorInjective(a: WhisperChainError, b: WhisperChainError)
    ensures ToProgramError(a) == ToProgramError(b) ==> a == b
  {
  }

  /** Every custom code 0..7 is the image of some domain error (of only one,
      by `ToProgramErrorInjective`). */
  lemma CustomCodesCovered(code: nat)
    requires code < 8
    ensures exists e :: ToProgramError(e) == Custom(code)
  {
    assert ToProgramError(FromCode(code).value) == Custom(code);
  }
}
