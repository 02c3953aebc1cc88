/** The ink! ERC-20 contract `WhisperToken`: a ledger of balances and
    allowances kept in storage mappings, where an absent key reads as 0. */
module Token {

  import opened Wrappers
  import opened Borsh

  /** ink!'s `AccountId`, 32 bytes. */
  type AccountId = Key

  const BALANCE_LIMIT: nat := 0x1_0000_0000_0000_0000_0000_0000_0000_0000

  /** ink!'s `Balance`, a `u128`. */
  type Balance = x: int | 0 <= x < BALANCE_LIMIT

  datatype Error = InsufficientBalance | InsufficientAllowance

  /** `Mapping::get(key).unwrap_or(0)`. */
  function Get<K>(m: map<K, Balance>, k: K): (r: Balance)
    ensures k !in m ==> r == 0
    ensures k in m ==> r == m[k]
  {
    if k in m then m[k] else 0
  }

  /** The sum of all stored balances. */
  ghost function Sum(m: map<AccountId, Balance>): nat
    decreases |m.Keys|
  {
    if m == map[] then 0
    else
      var k :| k in m;
      assert |(m - {k}).Keys| < |m.Keys| by {
        assert m.Keys == (m - {k}).Keys + {k};
      }
      m[k] + Sum(m - {k})
  }

  lemma {:induction false} SumRemove(m: map<AccountId, Balance>, k: AccountId)
    requires k in m
    ensures Sum(m) == m[k] + Sum(m - {k})
    decreases |m.Keys|
  {
    var j :| j in m && Sum(m) == m[j] + Sum(m - {j});
    if j != k {
      assert |(m - {j}).Keys| < |m.Keys| by {
        assert m.Keys == (m - {j}).Keys + {j};
      }
      assert |(m - {k}).Keys| < |m.Keys| by {
        assert m.Keys == (m - {k}).Keys + {k};
      }
      SumRemove(m - {j}, k);
      SumRemove(m - {k}, j);
      assert m - {j} - {k} == m - {k} - {j};
    }
  }

  /** Storing `v` under `k` changes the sum by the difference to what `k` read before. */
  lemma SumUpdate(m: map<AccountId, Balance>, k: AccountId, v: Balance)
    ensures Sum(m[k := v]) + Get(m, k) == Sum(m) + v
  {
    SumRemove(m[k := v], k);
    if k in m {
      SumRemove(m, k);
      assert m[k := v] - {k} == m - {k};
    } else {
      assert m[k := v] - {k} == m;
    }
  }

  /** No single balance exceeds the sum of all of them. */
  lemma GetBoundedBySum(m: map<AccountId, Balance>, k: AccountId)
    ensures Get(m, k) <= Sum(m)
  {
    if k in m {
      SumRemove(m, k);
    }
  }

  /** The balances after `transfer_from_to(from, to, value)` succeeds: `from`
      is debited first, then `to`'s balance is read again and credited, so a
      transfer to oneself leaves the balance as it was. */
  function Moved(balances: map<AccountId, Balance>, from: AccountId, to: AccountId, value: Balance)
    : (r: map<AccountId, Balance>)
    requires value <= Get(balances, from) && Sum(balances) < BALANCE_LIMIT
    ensures from != to ==> Get(r, from) == Get(balances, from) - value && Get(r, to) == Get(balances, to) + value
    ensures from == to ==> Get(r, from) == Get(balances, from)
    ensures forall k :: k != from && k != to ==> Get(r, k) == Get(balances, k)
  {
    var debited := balances[from := Get(balances, from) - value];
    CreditFits(balances, from, to, value);
    debited[to := Get(debited, to) + value]
  }

  /** After the debit, crediting `to` cannot overflow a `u128`: both amounts
      are part of a sum that is below the limit. */
  lemma CreditFits(balances: map<AccountId, Balance>, from: AccountId, to: AccountId, value: Balance)
    requires value <= Get(balances, from) && Sum(balances) < BALANCE_LIMIT
    ensures Get(balances[from := Get(balances, from) - value], to) + value < BALANCE_LIMIT
  {
    var debited := balances[from := Get(balances, from) - value];
    SumUpdate(balances, from, Get(balances, from) - value);
    GetBoundedBySum(debited, to);
  }

  /** A transfer moves balance between accounts and leaves the sum unchanged. */
  lemma {:induction false} MovedConservesSum(balances: map<AccountId, Balance>, from: AccountId, to: AccountId, value: Balance)
    requires value <= Get(balances, from) && Sum(balances) < BALANCE_LIMIT
    ensures Sum(Moved(balances, from, to, value)) == Sum(balances)
  {
    var debited := balances[from := Get(balances, from) - value];
    SumUpdate(balances, from, Get(balances, from) - value);
    CreditFits(balances, from, to, value);
    var credit := Get(debited, to) + value;
    SumUpdate(debited, to, credit);
    assert Moved(balances, from, to, value) == debited[to := credit];
  }

  class WhisperToken {
    var totalSupply: Balance
    var balances: map<AccountId, Balance>
    var allowances: map<(AccountId, AccountId), Balance>

    /** The balances add up to the total supply. */
    ghost predicate Valid()
      reads this
    {
      Sum(balances) == totalSupply
    }

    /** `new(total_supply)`: the caller holds the whole supply. */
    constructor (caller: AccountId, supply: Balance)
      ensures Valid()
      ensures totalSupply == supply
      ensures balances == map[caller := supply] && allowances == map[]
    {
      totalSupply := supply;
      balances := map[caller := supply];
      allowances := map[];
      new;
      SumRemove(balances, caller);
      assert balances - {caller} == map[];
    }

    function TotalSupply(): (r: Balance)
      reads this
      requires Valid()
      ensures r == Sum(balances)
    {
      totalSupply
    }

    function BalanceOf(owner: AccountId): (r: Balance)
      reads this
      requires Valid()
      ensures owner !in balances ==> r == 0
      ensures owner in balances ==> r == balances[owner]
      ensures r <= TotalSupply()
    {
      GetBoundedBySum(balances, owner);
      Get(balances, owner)
    }

    function Allowance(owner: AccountId, spender: AccountId): (r: Balance)
      reads this
      ensures (owner, spender) !in allowances ==> r == 0
      ensures (owner, spender) in allowances ==> r == allowances[(owner, spender)]
    {
      Get(allowances, (owner, spender))
    }

    /** `transfer_from_to`: fails with nothing changed when `from` holds less
        than `value`; otherwise moves `value` from `from` to `to`. */
    method TransferFromTo(from: AccountId, to: AccountId, value: Balance) returns (r: Result<(), Error>)
      requires Valid()
      modifies this
      ensures Valid()
      ensures totalSupply == old(totalSupply) && allowances == old(allowances)
      ensures r.Err? <==> Get(old(balances), from) < value
      ensures r.Err? ==> r.error == InsufficientBalance && balances == old(balances)
      ensures r.Ok? ==> balances == Moved(old(balances), from, to, value)
    {
      var fromBalance := BalanceOf(from);
      if fromBalance < value {
        return Err(InsufficientBalance);
      }
      ghost var moved := Moved(balances, from, to, value);
      balances := balances[from := fromBalance - value];
      var toBalance := Get(balances, to);
      assert toBalance + value == Get(moved, to);
      balances := balances[to := toBalance + value];
      assert balances == moved;
      MovedConservesSum(old(balances), from, to, value);
      r := Ok(());
    }

    /** `transfer(to, value)` from the caller. */
    method Transfer(caller: AccountId, to: AccountId, value: Balance) returns (r: Result<(), Error>)
      requires Valid()
      modifies this
      ensures Valid()
      ensures totalSupply == old(totalSupply) && allowances == old(allowances)
      ensures r.Err? <==> Get(old(balances), caller) < value
      ensures r.Err? ==> r.error == InsufficientBalance && balances == old(balances)
      ensures r.Ok? ==> balances == Moved(old(balances), caller, to, value)
    {
      r := TransferFromTo(caller, to, value);
    }

    /** `approve(spender, value)`: overwrites the caller's allowance for `spender`. */
    method Approve(caller: AccountId, spender: AccountId, value: Balance) returns (r: Result<(), Error>)
      requires Valid()
      modifies this
      ensures Valid() && r.Ok?
      ensures totalSupply == old(totalSupply) && balances == old(balances)
      ensures allowances == old(allowances)[(caller, spender) := value]
    {
      allowances := allowances[(caller, spender) := value];
      r := Ok(());
    }

    /** `transfer_from(from, to, value)` spending the caller's allowance: the
        allowance is checked first, then the balance; only a transfer that
        happens reduces the allowance, by exactly `value`. */
    method TransferFrom(caller: AccountId, from: AccountId, to: AccountId, value: Balance)
      returns (r: Result<(), Error>)
      requires Valid()
      modifies this
      ensures Valid()
      ensures totalSupply == old(totalSupply)
      ensures Get(old(allowances), (from, caller)) < value ==>
                r == Err(InsufficientAllowance) && balances == old(balances) && allowances == old(allowances)
      ensures Get(old(allowances), (from, caller)) >= value && Get(old(balances), from) < value ==>
                r == Err(InsufficientBalance) && balances == old(balances) && allowances == old(allowances)
      ensures r.Ok? <==> Get(old(allowances), (from, caller)) >= value && Get(old(balances), from) >= value
      ensures r.Ok? ==>
                && balances == Moved(old(balances), from, to, value)
                && allowances == old(allowances)[(from, caller) := Get(old(allowances), (from, caller)) - value]
    {
      var allowance := Allowance(from, caller);
      if allowance < value {
        return Err(InsufficientAllowance);
      }
      r := TransferFromTo(from, to, value);
      if r.Err? {
        return;
      }
      allowances := allowances[(from, caller) := allowance - value];
    }
  }
}
