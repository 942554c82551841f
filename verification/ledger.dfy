/**
 * The bank: a registry from account id to account, updated in place.
 * Looking an account up yields `None` where the Java code yields null.
 */
module Ledger {
  import opened Wrappers
  import opened Accounts

  class Bank {
    var accounts: map<Id, Account>

    /** Every account is filed under its own id. */
    ghost predicate Valid()
      reads this
    {
      forall id :: id in accounts ==> accounts[id].id == id
    }

    constructor ()
      ensures Valid()
      ensures accounts == map[] && |accounts| == 0
    {
      accounts := map[];
    }

    /**
     * Files the account under its id. An account already filed under that id
     * is replaced, so the count grows only for a new id.
     */
    method AddAccount(account: Account)
      requires Valid()
      modifies this
      ensures Valid()
      ensures accounts == old(accounts)[account.id := account]
      ensures accounts.Keys == old(accounts).Keys + {account.id}
      ensures account.id in old(accounts) ==> |accounts| == |old(accounts)|
      ensures account.id !in old(accounts) ==> |accounts| == |old(accounts)| + 1
    {
      accounts := accounts[account.id := account];
    }

    method GetAccountById(id: Id) returns (r: Option<Account>)
      ensures r.Some? <==> id in accounts
      ensures r.Some? ==> r.value == accounts[id]
      ensures Valid() && r.Some? ==> r.value.id == id
    {
      if id in accounts {
        r := Some(accounts[id]);
      } else {
        r := None;
      }
    }

    /** The stored account's type name, or `None` when no account has this id. */
    method GetAccountType(id: Id) returns (t: Option<string>)
      ensures t.Some? <==> id in accounts
      ensures t.Some? ==> t.value == KindName(accounts[id].kind)
    {
      var account := GetAccountById(id);
      if account.Some? {
        t := Some(KindName(account.value.kind));
      } else {
        t := None;
      }
    }

    method GetAccountCount() returns (n: nat)
      ensures n == |accounts.Keys|
    {
      n := |accounts|;
    }

    /** The Java code dereferences the looked-up account, so the id must exist. */
    method DepositById(id: Id, amount: real)
      requires Valid() && id in accounts
      modifies this
      ensures Valid()
      ensures accounts == old(accounts)[id := Deposit(old(accounts)[id], amount)]
      ensures accounts.Keys == old(accounts).Keys && |accounts| == |old(accounts)|
      ensures accounts[id].balance == old(accounts)[id].balance + amount
      ensures forall k :: k in accounts && k != id ==> accounts[k] == old(accounts)[k]
    {
      var account := GetAccountById(id);
      accounts := accounts[id := Deposit(account.value, amount)];
    }

    /** Clamps the balance at zero; the id must exist, as for `DepositById`. */
    method WithdrawById(id: Id, amount: real)
      requires Valid() && id in accounts
      modifies this
      ensures Valid()
      ensures accounts == old(accounts)[id := Withdraw(old(accounts)[id], amount)]
      ensures accounts.Keys == old(accounts).Keys && |accounts| == |old(accounts)|
      ensures accounts[id].balance >= 0.0
      ensures accounts[id].balance == if amount > old(accounts)[id].balance then 0.0
                                      else old(accounts)[id].balance - amount
      ensures forall k :: k in accounts && k != id ==> accounts[k] == old(accounts)[k]
    {
      var account := GetAccountById(id);
      accounts := accounts[id := Withdraw(account.value, amount)];
    }

    method AccountExistsByQuickID(id: Id) returns (b: bool)
      ensures b <==> id in accounts
    {
      var account := GetAccountById(id);
      b := account.Some?;
    }
  }
}
