/** The host's side of an instruction: accounts handed to the program, their
    value snapshots, and the host services the processor relies on
    (`create_account` of the system program, writing into account data). */
module Accounts {

  import opened Wrappers
  import opened Borsh
  import opened Errors

  /** `system_program::ID`, which is the all-zero key. */
  const SYSTEM_PROGRAM_ID: Key := ZERO_KEY

  /** A snapshot of one account: what the processor can observe and change. */
  datatype AccountView = AccountView(key: Key, owner: Key, isSigner: bool, lamports: U64, data: seq<Byte>)

  /** An `AccountInfo`: key and signer flag are fixed for the call; owner,
      lamports and the data buffer are updated in place. */
  class Account {
    const key: Key
    const isSigner: bool
    var owner: Key
    var lamports: U64
    var data: seq<Byte>

    constructor (key: Key, owner: Key, isSigner: bool, lamports: U64, data: seq<Byte>)
      ensures View() == AccountView(key, owner, isSigner, lamports, data)
    {
      this.key := key;
      this.isSigner := isSigner;
      this.owner := owner;
      this.lamports := lamports;
      this.data := data;
    }

    function View(): AccountView
      reads this
    {
      AccountView(key, owner, isSigner, lamports, data)
    }
  }

  /** No account object appears twice in the list. */
  ghost predicate Disjoint(accounts: seq<Account>)
    decreases |accounts|
  {
    accounts == [] || (accounts[0] !in accounts[1..] && Disjoint(accounts[1..]))
  }

  /** Two positions of a disjoint list hold different objects. */
  lemma {:induction false} DisjointAt(accounts: seq<Account>, i: nat, j: nat)
    requires Disjoint(accounts) && i < |accounts| && j < |accounts| && i != j
    ensures accounts[i] != accounts[j]
  {
    if i == 0 {
      assert accounts[j] == accounts[1..][j - 1];
    } else if j == 0 {
      assert accounts[i] == accounts[1..][i - 1];
    } else {
      DisjointAt(accounts[1..], i - 1, j - 1);
    }
  }

  /** The snapshots of all accounts, position by position. */
  ghost function Views(accounts: seq<Account>): (r: seq<AccountView>)
    reads set a | a in accounts
    ensures |r| == |accounts|
    ensures forall i :: 0 <= i < |accounts| ==> r[i] == accounts[i].View()
  {
    if accounts == [] then [] else [accounts[0].View()] + Views(accounts[1..])
  }

  lemma ViewsAre(accounts: seq<Account>, vs: seq<AccountView>)
    requires |vs| == |accounts|
    requires forall i :: 0 <= i < |accounts| ==> accounts[i].View() == vs[i]
    ensures Views(accounts) == vs
  {
  }

  /** Sum of the lamports held by a list of accounts. */
  function TotalLamports(views: seq<AccountView>): nat
  {
    if views == [] then 0 else views[0].lamports + TotalLamports(views[1..])
  }

  lemma {:induction false} TotalLamportsUpdate(views: seq<AccountView>, i: nat, v: AccountView)
    requires i < |views|
    ensures TotalLamports(views[i := v]) + views[i].lamports == TotalLamports(views) + v.lamports
  {
    if i > 0 {
      assert views[i := v][1..] == views[1..][i - 1 := v];
      TotalLamportsUpdate(views[1..], i - 1, v);
    } else {
      assert views[i := v][1..] == views[1..];
    }
  }

  /** The total depends only on the lamports at each position. */
  lemma {:induction false} TotalLamportsAgree(a: seq<AccountView>, b: seq<AccountView>)
    requires |a| == |b|
    requires forall i :: 0 <= i < |a| ==> a[i].lamports == b[i].lamports
    ensures TotalLamports(a) == TotalLamports(b)
  {
    if a != [] {
      TotalLamportsAgree(a[1..], b[1..]);
    }
  }

  /** Moving lamports between two positions leaves the total unchanged. */
  lemma TotalLamportsMove(views: seq<AccountView>, i: nat, j: nat, vi: AccountView, vj: AccountView)
    requires i < |views| && j < |views| && i != j
    requires vi.lamports + vj.lamports == views[i].lamports + views[j].lamports
    ensures TotalLamports(views[i := vi][j := vj]) == TotalLamports(views)
  {
    TotalLamportsUpdate(views, i, vi);
    TotalLamportsUpdate(views[i := vi], j, vj);
  }

  function Status<T>(r: Result<T, ProgramError>): Result<(), ProgramError>
  {
    if r.Ok? then Ok(()) else Err(r.error)
  }

  /** The system program's `create_account(payer, target, lamports, space, owner)`,
      reduced to the checks that decide its outcome: the target must hold no
      lamports and no data and still belong to the system program; the payer
      must hold no data, belong to the system program (only an account's owner
      may debit it) and be able to fund the target. The target gets `space`
      zero bytes. */
  function CreateAccount(payer: AccountView, target: AccountView, lamports: U64, space: nat, owner: Key)
    : (r: Result<(AccountView, AccountView), ProgramError>)
    ensures r.Err? ==> r.error == CreateAccountFailed
    ensures r.Ok? <==> target.lamports == 0 && |target.data| == 0 && target.owner == SYSTEM_PROGRAM_ID
                       && |payer.data| == 0 && payer.owner == SYSTEM_PROGRAM_ID && payer.lamports >= lamports
    ensures r.Ok? ==> r.value.0.lamports + r.value.1.lamports == payer.lamports + target.lamports
    ensures r.Ok? ==> r.value.0 == payer.(lamports := r.value.0.lamports)
    ensures r.Ok? ==> r.value.1 == target.(owner := owner, lamports := lamports, data := Zeros(space))
  {
    if target.lamports > 0 || |target.data| > 0 || target.owner != SYSTEM_PROGRAM_ID then Err(CreateAccountFailed)
    else if |payer.data| > 0 || payer.owner != SYSTEM_PROGRAM_ID then Err(CreateAccountFailed)
    else if payer.lamports < lamports then Err(CreateAccountFailed)
    else Ok((payer.(lamports := payer.lamports - lamports),
             target.(owner := owner, lamports := lamports, data := Zeros(space))))
  }

  /** Runs `create_account` with the accounts at positions `p` (payer) and
      `t` (target); on failure nothing changes. */
  method CreateAccountAt(accounts: seq<Account>, p: nat, t: nat, lamports: U64, space: nat, owner: Key)
    returns (r: Result<(), ProgramError>)
    requires Disjoint(accounts) && p < |accounts| && t < |accounts| && p != t
    modifies accounts[p], accounts[t]
    ensures r == Status(CreateAccount(old(Views(accounts))[p], old(Views(accounts))[t], lamports, space, owner))
    ensures Views(accounts) ==
              if r.Ok? then
                var created := CreateAccount(old(Views(accounts))[p], old(Views(accounts))[t], lamports, space, owner).value;
                old(Views(accounts))[p := created.0][t := created.1]
              else old(Views(accounts))
  {
    ghost var before := Views(accounts);
    DisjointAt(accounts, p, t);
    var payer, target := accounts[p], accounts[t];
    if target.lamports > 0 || |target.data| > 0 || target.owner != SYSTEM_PROGRAM_ID
       || |payer.data| > 0 || payer.owner != SYSTEM_PROGRAM_ID || payer.lamports < lamports {
      return Err(CreateAccountFailed);
    }
    payer.lamports := payer.lamports - lamports;
    target.owner := owner;
    target.lamports := lamports;
    target.data := Zeros(space);
    r := Ok(());
    ghost var created := CreateAccount(before[p], before[t], lamports, space, owner).value;
    ghost var after := before[p := created.0][t := created.1];
    forall i | 0 <= i < |accounts|
      ensures accounts[i].View() == after[i]
    {
      if i != p && i != t {
        DisjointAt(accounts, i, p);
        DisjointAt(accounts, i, t);
      }
    }
    ViewsAre(accounts, after);
  }

  /** Borsh `serialize` into `&mut data[..]`: the encoding overwrites a prefix
      of the buffer and the rest is left as it was. */
  function Overwrite(data: seq<Byte>, bytes: seq<Byte>): (r: seq<Byte>)
    requires |bytes| <= |data|
    ensures |r| == |data|
    ensures r[..|bytes|] == bytes && r[|bytes|..] == data[|bytes|..]
  {
    bytes + data[|bytes|..]
  }

  /** Writes `bytes` at the start of the data of the account at position `k`;
      no other account changes. */
  method WriteData(accounts: seq<Account>, k: nat, bytes: seq<Byte>)
    requires Disjoint(accounts) && k < |accounts| && |bytes| <= |accounts[k].data|
    modifies accounts[k]
    ensures Views(accounts) == old(Views(accounts))[k := old(Views(accounts))[k].(data := Overwrite(old(Views(accounts))[k].data, bytes))]
  {
    ghost var before := Views(accounts);
    accounts[k].data := Overwrite(accounts[k].data, bytes);
    ghost var after := before[k := before[k].(data := Overwrite(before[k].data, bytes))];
    forall i | 0 <= i < |accounts|
      ensures accounts[i].View() == after[i]
    {
      if i != k {
        DisjointAt(accounts, i, k);
      }
    }
    ViewsAre(accounts, after);
  }
}
