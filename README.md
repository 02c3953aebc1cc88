# WhisperChain in Dafny

A verified model of the core of WhisperChain, in four parts:

- **The Solana program** (`program/src/`). It has four instructions:
  - InitializeChat opens a chat account at the address derived from `("chat", initializer)`.
  - SendMessage admits the sender, creates a message account at the address derived from `("message", chat, le8(message_count))` and advances the chat's counter.
  - DeleteChat and DeleteMessage close an account: all of its lamports go to the caller and every data byte is zeroed.

  Records and instructions use Borsh: fields in declaration order, little-endian integers, and a u32 length prefix before `Vec<u8>`.
- **The ink! ERC-20 contract `WhisperToken`** (`examples/ink/lib/lib.rs`): balances and allowances in storage mappings where an absent key reads as 0.
- **The Substrate pallet `whisper`** (`examples/rust-substrate/pallets/whisper/lib.rs`): per-account message lists, appended to by `send_message` and pruned by index by `delete_message`.
- **The C++ `Keccak256` hasher** (`examples/cpp/crypto/keccak256.cpp`): a 25-lane state and a 136-byte rate buffer, byte-wise `update`, `absorb` of 17 little-endian lanes, pad10*1 with domain byte 0x01, a 32-byte squeeze and hex output. The permutation is the one the code computes, which its own comment calls simplified. Nothing here claims that it equals Keccak-f[1600] as standardised in FIPS 202.

## Layout

| file | module | models |
|---|---|---|
| `wrappers.dfy` | `Wrappers` | `Option` and `Result` |
| `borsh.dfy` | `Borsh` | bytes, keys, little-endian `u32`/`u64`/`i64`, `bool` |
| `errors.dfy` | `Errors` | `WhisperChainError`, `ProgramError`, the `Custom(code)` mapping |
| `state.dfy` | `State` | `Chat`, `Message`, `Chat::LEN`, `Message::space`, `is_participant`, `is_expired`, the Borsh layout |
| `instruction.dfy` | `Instruction` | `WhisperChainInstruction` and its wire format |
| `accounts.dfy` | `Accounts` | `AccountInfo` as a class; the system program's `create_account`; writing into account data |
| `processor.dfy` | `Processor` | the four operations |
| `entrypoint.dfy` | `Entrypoint` | `process_instruction` |
| `token.dfy` | `Token` | `WhisperToken` |
| `pallet.dfy` | `WhisperPallet` | the `Messages` map, `send_message`, `delete_message` |
| `keccak.dfy` | `Keccak` | `Keccak256` |

### The Solana program

Each operation comes in two forms:

- **A specification function** (`InitializeChatSpec`, `SendMessageSpec`, `DeleteChatSpec`, `DeleteMessageSpec`). It maps value snapshots of the accounts (`AccountView`) to the new snapshots or to the error the program returns. Its `ensures` spell out the error precedence, the new records as they decode, and the lamports moved.
- **A method** (`ProcessInitializeChat`, …). It updates `Account` objects in place, in the program's own order of checks and writes. Its contract ties the result and the new snapshots to the specification function: on an error the accounts are unchanged.

What the runtime supplies is a `Host` value:

- the program id;
- address derivation `find_program_address(seeds, program_id).0`, as a deterministic function parameter;
- the rent-exempt minimum for a size;
- the clock's unix time;
- the clock sysvar's address.

The system program's `create_account` is reduced to the checks that decide its outcome (`Accounts.CreateAccount`). The target must be unfunded, unallocated and owned by the system program. The payer must hold no data, be owned by the system program (only an account's owner may debit it) and afford the rent. On success the target gets that many zero bytes and the new owner. Any refusal is reported as `CreateAccountFailed`.

Where the code departs from the program's documented intent, the model follows the code:

- `message_count += 1` is a plain `u64` addition. The model wraps it to 0 after 2^64 − 1 (`Processor.NextCount`), which is what a build without overflow checks does (the default for Rust release builds). A build with overflow checks would panic there instead; the source names no build profile.
- A message account zero-filled by DeleteMessage does not read back as an uninitialized message when its payload was non-empty. The zero length prefix leaves trailing bytes, and `try_from_slice` refuses them (`State.ZeroedMessageRead`). A zeroed chat account does read back as uninitialized (`State.ZeroedChatReadsUninitialized`).

### Keccak256

The hasher is a class over the arrays `state` (25 `bv64` lanes) and `buffer` (136 bytes) and the counter `bufferSize`. Every loop of the C++ is a loop here. Each method is proved against a function on values:

- `Feed` is the bytes pushed one at a time, absorbing whenever the buffer fills.
- `Pad` is the padded last block.
- `Permutation` is `Round` (Theta, Rho and Pi, Chi, Iota) applied 24 times.
- `Squeeze` gives lanes 0 to 3 as 32 little-endian bytes.
- `Hex` gives two lowercase digits per byte.

The value functions have their own lemmas:

- Pi is a bijection on the 25 lanes.
- Loading and storing a lane are inverse.
- Feeding in two pieces is feeding the whole.
- Hex decoding inverts `Hex`.

## Model

| member | source | states |
|---|---|---|
| Errors.FromCode | program/src/error.rs:4-29 | a code names a variant exactly when it is below 8, and then that variant's discriminant is the code: the error set is closed |
| Errors.ToProgramError | program/src/error.rs:31-35 | every domain error becomes `Custom(d)` with d < 8 its declaration index, recoverable by `FromCode` |
| Errors.ToProgramErrorInjective | program/src/error.rs:31-35 | distinct domain errors give distinct custom codes |
| Errors.CustomCodesCovered | program/src/error.rs:4-35 | every custom code 0..7 is produced by some domain error |
| Borsh.LeValueOfLeBytes | program/src/state.rs:26-32 | reading back the n little-endian bytes of x < 256^n gives x |
| Borsh.LeBytesOfLeValue | program/src/state.rs:26-32 | every byte string is the little-endian encoding of the value it reads as |
| Borsh.I64RoundTrip | program/src/state.rs:26 | an `i64` written in two's complement reads back unchanged, negative values included |
| Borsh.I64Canonical | program/src/state.rs:26 | any 8 bytes are the encoding of the `i64` they read as |
| Borsh.U64RoundTrip | program/src/state.rs:29 | a `u64` written as 8 little-endian bytes reads back unchanged |
| Borsh.U64Canonical | program/src/state.rs:29 | any 8 bytes are the encoding of the `u64` they read as |
| Borsh.U32RoundTrip | program/src/state.rs:75 | the `u32` length prefix of a `Vec<u8>` reads back unchanged |
| Borsh.U32Canonical | program/src/state.rs:75 | any 4 bytes are the encoding of the `u32` they read as |
| Borsh.ByteBool | program/src/state.rs:11 | a `bool` decodes only from 0 or 1, and re-encodes to the same byte |
| State.ZeroKeyIsParticipantWhileUnset | program/src/state.rs:45-47 | while participant2 is the zero key, `is_participant(zero key)` holds |
| State.NonPositiveExpiryNeverExpires | program/src/state.rs:91-93 | a message with `expires_at <= 0` is never expired, whatever the time |
| State.EncodeChat | program/src/state.rs:8-43 | a serialized Chat is exactly `Chat::LEN` = 153 bytes |
| State.DecodeChat | program/src/state.rs:8-33 | only a slice of exactly `Chat::LEN` bytes can decode (shorter runs out, longer has trailing bytes) |
| State.ChatRoundTrip | program/src/state.rs:8-33 | decoding the encoding of any Chat gives that Chat |
| State.ChatCanonical | program/src/state.rs:8-33 | every slice that decodes is the encoding of the Chat it decodes to |
| State.ZeroedChatReadsUninitialized | program/src/state.rs:8-43 | a zero-filled Chat account decodes to the uninitialized all-zero Chat |
| State.EncodeMessage | program/src/state.rs:80-89 | a serialized Message with an n-byte payload is exactly `Message::space(n)` = 125 + n bytes |
| State.DecodeMessage | program/src/state.rs:51-89 | a decoded slice is exactly as long as the record its length prefix announces |
| State.MessageRoundTrip | program/src/state.rs:51-76 | decoding the encoding of any Message gives that Message |
| State.MessageCanonical | program/src/state.rs:51-76 | every slice that decodes is the encoding of the Message it decodes to |
| State.ZeroedMessageRead | program/src/processor.rs:264 | a zero-filled message account decodes iff it was sized for an empty payload, and then reads as uninitialized |
| Instruction.EncodeInstruction | program/src/instruction.rs:4-50 | the tag byte is the declaration index; InitializeChat is 33 bytes, SendMessage 53 + n, the other two 1 |
| Instruction.DecodeInstruction | program/src/instruction.rs:4-50 | empty data or a tag of 4 or more never decodes |
| Instruction.InstructionRoundTrip | program/src/instruction.rs:4-50 | decoding the encoding of any instruction gives that instruction |
| Instruction.InstructionCanonical | program/src/instruction.rs:4-50 | every byte string that decodes is the encoding of what it decodes to, so trailing bytes are refused |
| Instruction.TruncatedFails | program/src/instruction.rs:4-50 | no proper prefix of an encoding decodes |
| Accounts.CreateAccount | program/src/processor.rs:55-73 | `create_account` succeeds exactly when the target is unfunded, unallocated and owned by the system program and the payer holds no data, is owned by the system program and can pay; every refusal is `CreateAccountFailed`; on success the payer keeps everything but the lamports, the target holds exactly the rent, `space` zero bytes and the new owner, and the two totals agree |
| Accounts.CreateAccountAt | program/src/processor.rs:55-73 | `create_account` between two distinct accounts: the result and the new snapshots are those of `CreateAccount`, and no other account changes |
| Accounts.Overwrite | program/src/processor.rs:88 | serializing into the data buffer replaces its prefix by the encoding and keeps the rest and the length |
| Accounts.WriteData | program/src/processor.rs:88 | only the written account's data changes, to `Overwrite` of the old data |
| Accounts.TotalLamportsMove | program/src/processor.rs:231-235 | moving lamports between two positions leaves the total unchanged |
| Processor.MessageSeedsInjective | program/src/processor.rs:140-147 | distinct (chat, index) pairs give distinct message seeds |
| Processor.NextCount | program/src/processor.rs:195 | the counter grows by one and wraps to 0 after 2^64 − 1 |
| Processor.Admit | program/src/processor.rs:129-135 | a non-participant1 sender takes a free second seat with its ephemeral key; otherwise a non-participant gets NotAuthorized; a set participant2 never changes; an admitted sender is a participant |
| Processor.Close | program/src/processor.rs:230-239 | closing moves all lamports to the destination with a checked add (overflow gives ArithmeticOverflow), leaves the closed account with 0 lamports and all-zero data of the same length |
| Processor.CloseAt | program/src/processor.rs:230-239 | in place: the result and new snapshots are those of `Close`, and no other account changes |
| Processor.InitializeChatSpec | program/src/processor.rs:21-92 | missing accounts, then a missing signature, then a key other than the derived chat address are refused; once those checks pass it succeeds exactly when `create_account` does, and otherwise fails with `CreateAccountFailed`; on success the payer paid exactly the rent, the chat account belongs to the program and decodes to `(true, initializer, 0, public_key, 0, now, 0, 0)`, and accounts from position 2 on are unchanged |
| Processor.InitializeChatConservesLamports | program/src/processor.rs:50-73 | a successful initialization moves lamports and creates none |
| Processor.ProcessInitializeChat | program/src/processor.rs:21-92 | the in-place operation returns what `InitializeChatSpec` returns and leaves the accounts as it says, unchanged on error |
| Processor.InitializeChatChain | program/src/processor.rs:50-88 | create_account followed by the Chat write makes up `InitializeChatSpec` |
| Processor.SendMessageSpec | program/src/processor.rs:94-201 | the checks in program order, each with its error (accounts, signer, 512-byte cap with 512 passing, owner, `BorshIoError` for chat data that does not decode, initialized, then `NotAuthorized` for a sender the participant rule refuses and `InvalidAccountData` for a message account that is not at the derived address); on success the message account holds the message numbered by the old count with the given chat, sender, payload, key and times, the chat decodes to the admitted chat with the count advanced and `last_message_at = timestamp`, the sender paid exactly the rent, and accounts from position 3 on are unchanged |
| Processor.Deliver | program/src/processor.rs:154-197 | once the checks have passed, the send succeeds exactly when `create_account` accepts the sender and the message account, its only error is `CreateAccountFailed`, and the account list keeps its length |
| Processor.DeliverEffects | program/src/processor.rs:154-197 | after a send the sender paid the rent, the message account is program-owned and holds exactly the rent, the chat account keeps key, owner and lamports, and other accounts are unchanged |
| Processor.DeliverDecodes | program/src/processor.rs:180-197 | after a send the message account decodes to the new message and the chat account to the chat with the count advanced |
| Processor.SendMessageOutcome | program/src/processor.rs:154-178 | once every check passes, SendMessage succeeds exactly when `create_account` does and otherwise fails with `CreateAccountFailed` |
| Processor.SendMessageDelivers | program/src/processor.rs:109-152 | once every check passes, SendMessage is exactly `Deliver` with the admitted chat |
| Processor.DeliverAt | program/src/processor.rs:154-197 | create, write the message, write the chat, in place: result and snapshots are those of `Deliver` |
| Processor.DeliverChain | program/src/processor.rs:159-197 | the three writes of a send, snapshot by snapshot, compose to `Deliver` |
| Processor.DeliverConservesLamports | program/src/processor.rs:154-178 | a successful delivery keeps the lamport total: the rent only moves from the sender to the message account |
| Processor.SendMessageConservesLamports | program/src/processor.rs:154-178 | a successful send moves lamports and creates none |
| Processor.ProcessSendMessage | program/src/processor.rs:94-201 | the in-place operation returns what `SendMessageSpec` returns and leaves the accounts as it says, unchanged on error |
| Processor.DeleteChatSpec | program/src/processor.rs:203-243 | error precedence (accounts, signer, owner, `BorshIoError` for chat data that does not decode, `NotInitialized`, `NotAuthorized` for a non-participant); a participant's close then succeeds exactly when the two lamport balances sum below 2^64, and fails with `ArithmeticOverflow` otherwise; on success the participant gains exactly the chat's lamports, the chat has 0 lamports and all-zero data, other accounts unchanged |
| Processor.DeleteChatConservesLamports | program/src/processor.rs:230-235 | deleting a chat moves lamports and creates none |
| Processor.ProcessDeleteChat | program/src/processor.rs:203-243 | the in-place operation returns what `DeleteChatSpec` returns and leaves the accounts as it says |
| Processor.DeleteMessageSpec | program/src/processor.rs:245-299 | error precedence (accounts, signer, owner, `BorshIoError` for message data that does not decode, `NotInitialized`, then a message for another chat gives InvalidAccountData before a foreign sender gives NotAuthorized, then `InvalidArgument` when the fourth account is not the clock sysvar); the close then succeeds exactly when the two lamport balances sum below 2^64, and fails with `ArithmeticOverflow` otherwise; on success the sender gains exactly the message account's lamports and its data is all zero |
| Processor.DeleteMessageIgnoresExpiry | program/src/processor.rs:280-284 | the outcome of a deletion does not depend on the clock time |
| Processor.DeleteMessageConservesLamports | program/src/processor.rs:286-291 | deleting a message moves lamports and creates none |
| Processor.ProcessDeleteMessage | program/src/processor.rs:245-299 | the in-place operation returns what `DeleteMessageSpec` returns and leaves the accounts as it says |
| Entrypoint.ProcessInstructionSpec | program/src/lib.rs:26-59 | undecodable data gives InvalidInstructionData; otherwise the result is exactly the selected operation's |
| Entrypoint.ProcessEncoded | program/src/lib.rs:31-58 | encoded instruction data runs exactly the instruction encoded, with its arguments unchanged |
| Entrypoint.UnknownTagRejected | program/src/lib.rs:31-32 | empty data or an unknown tag is refused with InvalidInstructionData |
| Entrypoint.ProcessInstructionConservesLamports | program/src/lib.rs:34-58 | no instruction creates or destroys lamports |
| Entrypoint.ProcessInstruction | program/src/lib.rs:26-59 | the in-place dispatch returns what `ProcessInstructionSpec` returns and leaves the accounts as it says |
| Token.Get | examples/ink/lib/lib.rs:81 | `get(k).unwrap_or(0)`: an absent key reads as 0 |
| Token.Moved | examples/ink/lib/lib.rs:149-152 | a transfer debits `from` and credits `to` by `value`, leaves a self-transfer's balance as it was, and changes no other balance |
| Token.CreditFits | examples/ink/lib/lib.rs:151-152 | while the balances sum below 2^128 the credit `to_balance + value` cannot overflow |
| Token.MovedConservesSum | examples/ink/lib/lib.rs:149-152 | a transfer leaves the sum of all balances unchanged |
| Token.WhisperToken.constructor | examples/ink/lib/lib.rs:54-70 | `new(s)`: total supply s, all of it held by the caller, no allowances |
| Token.WhisperToken.TotalSupply | examples/ink/lib/lib.rs:74-76 | the total supply is the sum of all balances |
| Token.WhisperToken.BalanceOf | examples/ink/lib/lib.rs:80-82 | 0 for an account never written, otherwise the stored balance; never more than the total supply |
| Token.WhisperToken.Allowance | examples/ink/lib/lib.rs:86-88 | 0 for a pair never approved, otherwise the stored allowance |
| Token.WhisperToken.TransferFromTo | examples/ink/lib/lib.rs:137-161 | fails with InsufficientBalance exactly when `from` holds less than `value`, then changing nothing; otherwise the balances become `Moved`; supply and allowances never change; balances still sum to the supply |
| Token.WhisperToken.Transfer | examples/ink/lib/lib.rs:92-95 | `transfer_from_to` from the caller |
| Token.WhisperToken.Approve | examples/ink/lib/lib.rs:99-110 | overwrites exactly the (caller, spender) allowance with `value` |
| Token.WhisperToken.TransferFrom | examples/ink/lib/lib.rs:114-134 | the allowance is checked first (InsufficientAllowance), then the balance (InsufficientBalance), both changing nothing; success moves the balances and reduces the allowance by exactly `value` |
| WhisperPallet.SaturateToU64 | examples/rust-substrate/pallets/whisper/lib.rs:80 | block numbers that fit are kept and larger ones saturate to 2^64 − 1 |
| WhisperPallet.RemoveAt | examples/rust-substrate/pallets/whisper/lib.rs:111 | `Vec::remove(i)`: one shorter, elements before i unchanged, elements after shifted down by one |
| WhisperPallet.RemoveAtInverse | examples/rust-substrate/pallets/whisper/lib.rs:111 | inserting the removed element back at i restores the list |
| WhisperPallet.RemoveAtMultiset | examples/rust-substrate/pallets/whisper/lib.rs:111 | removal loses exactly one occurrence of the removed element |
| WhisperPallet.Pallet.constructor | examples/rust-substrate/pallets/whisper/lib.rs:21-29 | storage starts empty |
| WhisperPallet.Pallet.Messages | examples/rust-substrate/pallets/whisper/lib.rs:21-29 | `ValueQuery`: an account with no entry reads as the empty list |
| WhisperPallet.Pallet.SendMessage | examples/rust-substrate/pallets/whisper/lib.rs:65-94 | an unsigned origin or content over 256 bytes fails with storage unchanged; success appends exactly one entry (signer, content, block number) at the end of the recipient's list and no other list changes |
| WhisperPallet.Pallet.DeleteMessage | examples/rust-substrate/pallets/whisper/lib.rs:99-117 | an unsigned origin or an index past the end fails with storage unchanged; success removes exactly entry `index` of the signer's own list, and no other list changes |
| Keccak.RotateLeftSmall | examples/cpp/crypto/keccak256.cpp:134-136 | `rotateLeft` by 0 is the identity and by 1 is the 64-bit rotation |
| Keccak.SourceOfDest | examples/cpp/crypto/keccak256.cpp:113-119 | the lane Pi moves to (y, 2x + 3y mod 5) has (x, y) as its source |
| Keccak.DestOfSource | examples/cpp/crypto/keccak256.cpp:113-119 | every lane is the destination of its source, so Pi permutes the 25 lanes |
| Keccak.ThetaProgressStep | examples/cpp/crypto/keccak256.cpp:103-107 | XORing lane (x, y) with D[x] advances the Theta loop by one lane |
| Keccak.RhoPiProgressStep | examples/cpp/crypto/keccak256.cpp:113-119 | moving one rotated lane advances the Rho-Pi loop by one lane |
| Keccak.LaneOfLaneBytes | examples/cpp/crypto/keccak256.cpp:60-64 | the 8 squeezed bytes of a lane, loaded little-endian, give the lane |
| Keccak.LaneBytesOfLane | examples/cpp/crypto/keccak256.cpp:79-85 | 8 bytes loaded as a lane and stored again give the bytes |
| Keccak.Push | examples/cpp/crypto/keccak256.cpp:37-44 | one byte keeps fewer than 136 bytes buffered, and the buffered count advances by one modulo 136 |
| Keccak.FeedAppend | examples/cpp/crypto/keccak256.cpp:36-45 | two `update` calls equal one `update` with the concatenated input |
| Keccak.FeedBuffers | examples/cpp/crypto/keccak256.cpp:36-45 | input that does not fill the buffer is only appended to it |
| Keccak.Pad | examples/cpp/crypto/keccak256.cpp:47-55 | 136 bytes: the pending bytes, 0x01, zeros, and 0x80 in the last byte, which is 0x81 when only one byte was free |
| Keccak.Hex | examples/cpp/crypto/keccak256.cpp:138-147 | two lowercase hex digits per byte |
| Keccak.HexAppend | examples/cpp/crypto/keccak256.cpp:142-144 | one more byte appends its two digits, high nibble first |
| Keccak.DigitsOfByte | examples/cpp/crypto/keccak256.cpp:143 | the two digits written for a byte read back as that byte |
| Keccak.HexRoundTrip | examples/cpp/crypto/keccak256.cpp:138-147 | reading the digits back gives the bytes, so the hex output loses nothing |
| Keccak.Keccak256.Reset | examples/cpp/crypto/keccak256.cpp:30-34 | all lanes and all 136 buffer bytes zero, nothing buffered |
| Keccak.Keccak256.constructor | examples/cpp/crypto/keccak256.cpp:26-28 | a new hasher is in the reset state |
| Keccak.Keccak256.ColumnParities | examples/cpp/crypto/keccak256.cpp:94-97 | C[x] is the XOR of column x |
| Keccak.Keccak256.ColumnEffects | examples/cpp/crypto/keccak256.cpp:99-101 | D[x] is C[x − 1] XOR C[x + 1] rotated by 1 |
| Keccak.Keccak256.XorLane | examples/cpp/crypto/keccak256.cpp:105 | only lane x + 5y changes, to itself XOR D[x] |
| Keccak.Keccak256.ThetaStep | examples/cpp/crypto/keccak256.cpp:93-107 | the state becomes `Theta` of the old state |
| Keccak.Keccak256.MoveLane | examples/cpp/crypto/keccak256.cpp:115-117 | only the destination lane changes, to the rotated source lane of the copy |
| Keccak.Keccak256.RhoPiStep | examples/cpp/crypto/keccak256.cpp:109-119 | the state becomes `RhoPi` of the old state |
| Keccak.Keccak256.ChiStep | examples/cpp/crypto/keccak256.cpp:121-127 | the state becomes `Chi` of the old state, each lane computed from the copy |
| Keccak.Keccak256.IotaStep | examples/cpp/crypto/keccak256.cpp:130 | only lane 0 changes, XORed with the round constant |
| Keccak.Keccak256.RoundStep | examples/cpp/crypto/keccak256.cpp:93-130 | one round: the state becomes `Round` of the old state |
| Keccak.Keccak256.KeccakF | examples/cpp/crypto/keccak256.cpp:90-132 | the state becomes the 24-round `Permutation` of the old state |
| Keccak.Keccak256.LoadLane | examples/cpp/crypto/keccak256.cpp:80-83 | the value assembled is buffer bytes 8i..8i + 7 read little-endian |
| Keccak.Keccak256.Absorb | examples/cpp/crypto/keccak256.cpp:77-88 | the 17 buffer lanes are XORed into lanes 0..16, lanes 17..24 are left alone, then the state is permuted |
| Keccak.Keccak256.Update | examples/cpp/crypto/keccak256.cpp:36-45 | fewer than 136 bytes stay buffered, and the sponge becomes `Feed` of the old one with the data |
| Keccak.Keccak256.PadBuffer | examples/cpp/crypto/keccak256.cpp:48-55 | the buffer becomes `Pad` of the buffered bytes and is full |
| Keccak.Keccak256.StoreLane | examples/cpp/crypto/keccak256.cpp:61-63 | output bytes 8i..8i + 7 become the little-endian bytes of lane i and earlier output bytes stay |
| Keccak.Keccak256.SqueezeInto | examples/cpp/crypto/keccak256.cpp:59-64 | the 32 output bytes are `Squeeze` of the state |
| Keccak.Keccak256.Finalize | examples/cpp/crypto/keccak256.cpp:47-65 | the output is `Digest` of the sponge before the call, the lanes are the padded last block absorbed into the old lanes, and the buffer is left padded and full |
| Keccak.Keccak256.BytesToHex | examples/cpp/crypto/keccak256.cpp:138-147 | the string built is `Hex` of the bytes |
| Keccak.Keccak256.Hash | examples/cpp/crypto/keccak256.cpp:67-75 | the hex digest of a fresh hasher fed the whole input: 64 lowercase digits |

## Left out

- Logging with `msg!`, and ink! and pallet events (`emit_event`, `deposit_event`): host effects with no bearing on state or results.
- The internals of `find_program_address`, which are SHA-256 and the off-curve check. `Host.derive` is a deterministic function parameter, and bump seeds are not modelled.
- The system program's `create_account` beyond its outcome checks. Cross-program invocation, signer seeds, the payer's signature inside the invocation and the third account's identity as the system program are not checked. Every refusal is one error, `CreateAccountFailed`.
- `Rent::get` and `Clock::get` are fields of `Host` (`minimumBalance` and `now`), and both are taken never to fail, so the error path of their `?` is not modelled. `Clock::from_account_info` fails with `InvalidArgument` exactly when the fourth account is not the clock sysvar; its data is not read.
- Account `is_writable` flags, which the runtime enforces.
- Aliasing between accounts: the methods require the account list to hold distinct objects (`Accounts.Disjoint`).
- Account data is a `seq` field that the methods reassign rather than a byte array changed in place. A Borsh write is `Overwrite`, which replaces a prefix.
- Borsh write failures: every write in the program targets a buffer that create_account has just sized for it, or the chat's own 153 bytes, so the write cannot fail. `Accounts.WriteData` requires the encoding to fit, and the callers establish that.
- The `BoundedVec::try_from` failure in `send_message` cannot happen once the length check has passed, so it is not a separate path.
- `ensure_signed` is modelled by the `Origin` datatype: only `Signed` names an account, and any other origin gives `BadOrigin`.
- The pallet's block number is an argument.
- The pallet's `MessageData` is generic in the account type, as in the source.
- Keccak.RotateLeftSmall: the rotation is related to the builtin rotation only for shifts 0 and 1. The permutation uses `RotateLeft` itself, so nothing depends on the others.
- Keccak.RotateLeft: a shift of 0 makes the C++ shift right by 64, which C++ leaves undefined. Here that shift gives 0, so the rotation by 0 is the identity. It only happens for lane (0, 0).
- Keccak.Permutation: it is the permutation the code computes. Its Rho offsets `((x + 3y)(x + 3y + 1)/2) mod 64` are not those of FIPS 202, and no equivalence with the standard is claimed.
- Keccak.Keccak256.ChiStep: the C++ `memcpy` into `temp` is a value snapshot of the state. Rho-Pi keeps its `temp` array.
- Keccak.Keccak256.Finalize: the buffer is left full, as in the C++. A second `update` or `finalize` without `reset` would write past the buffer, so both require the `Valid` state.
- Keccak.Keccak256.Hash: the `std::string` input is taken as its bytes.
- Keccak.Keccak256.BytesToHex: the bytes are passed as a value rather than as a pointer and a length.
- The squeeze and lane-load byte counter `j` is a `bv8`.
- The loop bodies of Theta, Rho-Pi, the lane load and the squeeze are separate methods (`XorLane`, `MoveLane`, `LoadLane`, `StoreLane`). The first part of `finalize` (`PadBuffer`) and its squeeze (`SqueezeInto`) are too.
