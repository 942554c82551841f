/**
 * Clients that replay the bank and command-store scenarios using the
 * contracts alone: what each assertion needs is promised by the
 * postconditions of the operations it calls.
 */
module Scenarios {
  import opened Wrappers
  import opened Accounts
  import opened Ledger
  import opened CommandStorage
  import opened ValidatorChecks
  import opened DepositCommandValidation

  method CountsAfterAdding()
  {
    var bank := new Bank();
    var n := bank.GetAccountCount();
    assert n == 0;
    bank.AddAccount(Account("12345678", Savings, 2.4, 0.0));
    bank.AddAccount(Account("12345679", Checking, 2.5, 0.0));
    n := bank.GetAccountCount();
    assert n == 2;
    bank.AddAccount(Account("12345678", Cd, 1.0, 500.0));
    n := bank.GetAccountCount();
    assert n == 2;
    var t := bank.GetAccountType("12345678");
    assert t == Some("cd");
  }

  method DepositTwiceThenOverdraw()
  {
    var bank := new Bank();
    bank.AddAccount(Account("12345678", Savings, 2.4, 0.0));
    bank.AddAccount(Account("12345679", Checking, 2.5, 0.0));
    bank.DepositById("12345678", 100.0);
    bank.DepositById("12345678", 100.0);
    var a := bank.GetAccountById("12345678");
    assert a.value.balance == 200.0 && a.value.apr == 2.4;
    bank.WithdrawById("12345678", 50.0);
    bank.WithdrawById("12345678", 50.0);
    a := bank.GetAccountById("12345678");
    assert a.value.balance == 100.0;
    bank.WithdrawById("12345678", 101.0);
    a := bank.GetAccountById("12345678");
    assert a.value.balance == 0.0;
    var other := bank.GetAccountById("12345679");
    assert other.value.balance == 0.0;
  }

  method ValidatingLeavesBankAlone(checks: Checks)
    requires checks.validId("12345678") && checks.validAmount("3000")
    requires checks.parseAmount("3000") == 3000.0
  {
    var bank := new Bank();
    bank.AddAccount(Account("12345678", Savings, 2.4, 0.0));
    var validator := new DepositCommandValidator(bank, checks);
    var ok := validator.ValidateDepositCommand(["deposit", "12345678", "3000"]);
    assert !ok;
    var n := bank.GetAccountCount();
    assert n == 1;
  }

  method LogKeepsOrderAndDuplicates()
  {
    var store := new CommandStore();
    store.AddInvalidCommand("deposit 1 x");
    store.AddInvalidCommand("create y");
    store.AddInvalidCommand("deposit 1 x");
    var all := store.GetAllInvalidCommands();
    assert all == ["deposit 1 x", "create y", "deposit 1 x"];
  }
}
