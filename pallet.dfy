/** The Substrate pallet `whisper`: per-account inboxes kept in the storage
    map `Messages`, appended to by `send_message` and pruned by the owner with
    `delete_message`. */
module WhisperPallet {

  import opened Wrappers
  import opened Borsh

  /** The bound of the `BoundedVec` that stores a message's content. */
  const MAX_CONTENT_LEN: nat := 256

  type Content = s: seq<Byte> | |s| <= MAX_CONTENT_LEN

  datatype MessageData<AccountId> = MessageData(sender: AccountId, content: Content, timestamp: U64)

  /** The pallet's errors, plus the `BadOrigin` that `ensure_signed` raises. */
  datatype Error = MessageTooLong | MessageNotFound | Unauthorized | BadOrigin

  /** The dispatch origin: only a signed origin names an account. */
  datatype Origin<AccountId> = Signed(who: AccountId) | Root | Unsigned

  /** `block_number().saturated_into::<u64>()`. */
  function SaturateToU64(blockNumber: nat): (r: U64)
    ensures blockNumber < U64_LIMIT ==> r == blockNumber
    ensures blockNumber >= U64_LIMIT ==> r == U64_LIMIT - 1
  {
    if blockNumber < U64_LIMIT then blockNumber else U64_LIMIT - 1
  }

  /** `Vec::remove(index)`: the element at `index` goes, the others keep
      their order. */
  function RemoveAt<T>(s: seq<T>, index: nat): (r: seq<T>)
    requires index < |s|
    ensures |r| == |s| - 1
    ensures forall k :: 0 <= k < index ==> r[k] == s[k]
    ensures forall k :: index <= k < |r| ==> r[k] == s[k + 1]
  {
    s[..index] + s[index + 1..]
  }

  /** Putting the removed element back where it was restores the list. */
  lemma RemoveAtInverse<T>(s: seq<T>, index: nat)
    requires index < |s|
    ensures RemoveAt(s, index)[..index] + [s[index]] + RemoveAt(s, index)[index..] == s
  {
    var r := RemoveAt(s, index);
    var t := r[..index] + [s[index]] + r[index..];
    assert |t| == |s|;
    forall k | 0 <= k < |s|
      ensures t[k] == s[k]
    {
      if k < index {
        assert t[k] == r[k];
      } else if k > index {
        assert t[k] == r[k - 1];
      }
    }
  }

  /** Removing loses exactly one occurrence of the removed element. */
  lemma RemoveAtMultiset<T>(s: seq<T>, index: nat)
    requires index < |s|
    ensures multiset(RemoveAt(s, index)) + multiset{s[index]} == multiset(s)
  {
    assert s == s[..index] + [s[index]] + s[index + 1..];
  }

  class Pallet<AccountId(==, !new)> {
    /** The stored part of `Messages`; an account without an entry reads as
        the empty list (`ValueQuery`). */
    var messages: map<AccountId, seq<MessageData<AccountId>>>

    constructor ()
      ensures messages == map[]
    {
      messages := map[];
    }

    /** The getter `messages(account)`. */
    function Messages(account: AccountId): (r: seq<MessageData<AccountId>>)
      reads this
      ensures account !in messages ==> r == []
      ensures account in messages ==> r == messages[account]
    {
      if account in messages then messages[account] else []
    }

    /** `send_message(origin, to, content)`: appends one message, stamped with
        the sender and the block number, at the end of `to`'s list. */
    method SendMessage(origin: Origin<AccountId>, to: AccountId, content: seq<Byte>, blockNumber: nat)
      returns (r: Result<(), Error>)
      modifies this
      ensures !origin.Signed? ==> r == Err(BadOrigin)
      ensures origin.Signed? && |content| > MAX_CONTENT_LEN ==> r == Err(MessageTooLong)
      ensures r.Ok? <==> origin.Signed? && |content| <= MAX_CONTENT_LEN
      ensures r.Err? ==> messages == old(messages)
      ensures r.Ok? ==> Messages(to) == old(Messages(to)) + [MessageData(origin.who, content, SaturateToU64(blockNumber))]
      ensures forall a :: a != to ==> Messages(a) == old(Messages(a))
    {
      if !origin.Signed? {
        return Err(BadOrigin);
      }
      var sender := origin.who;
      if |content| > MAX_CONTENT_LEN {
        return Err(MessageTooLong);
      }
      var message := MessageData(sender, content, SaturateToU64(blockNumber));
      messages := messages[to := Messages(to) + [message]];
      r := Ok(());
    }

    /** `delete_message(origin, index)`: removes entry `index` of the signer's
        own list, or fails with `MessageNotFound` when there is none. */
    method DeleteMessage(origin: Origin<AccountId>, index: U32) returns (r: Result<(), Error>)
      modifies this
      ensures !origin.Signed? ==> r == Err(BadOrigin)
      ensures origin.Signed? && index >= |old(Messages(origin.who))| ==> r == Err(MessageNotFound)
      ensures r.Ok? <==> origin.Signed? && index < |old(Messages(origin.who))|
      ensures r.Err? ==> messages == old(messages)
      ensures r.Ok? ==> Messages(origin.who) == RemoveAt(old(Messages(origin.who)), index)
      ensures forall a :: origin.Signed? && a != origin.who ==> Messages(a) == old(Messages(a))
    {
      if !origin.Signed? {
        return Err(BadOrigin);
      }
      var account := origin.who;
      var list := Messages(account);
      if index >= |list| {
        return Err(MessageNotFound);
      }
      messages := messages[account := RemoveAt(list, index)];
      r := Ok(());
    }
  }
}
