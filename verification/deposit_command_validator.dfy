/**
 * Validation of `deposit <id> <amount>` commands against the bank: the
 * account must exist, and a single deposit is capped at 2500 for savings
 * and 1000 for checking; any other kind of account takes no deposit.
 */
module DepositCommandValidation {
  import opened Accounts
  import opened Ledger
  import opened ValidatorChecks

  class DepositCommandValidator {
    const bank: Bank
    const checks: Checks

    constructor (bank: Bank, checks: Checks)
      ensures this.bank == bank && this.checks == checks
    {
      this.bank := bank;
      this.checks := checks;
    }

    /** Reads the bank only: it has no modifies clause, so no account changes. */
    method ValidateDepositCommand(parts: seq<string>) returns (ok: bool)
      ensures |parts| != 3 ==> !ok
      ensures |parts| == 3 && !(checks.validId(parts[1]) && checks.validAmount(parts[2])) ==> !ok
      ensures |parts| == 3 && parts[1] !in bank.accounts ==> !ok
      ensures ok ==> |parts| == 3 && parts[1] in bank.accounts && bank.accounts[parts[1]].kind != Cd
      ensures |parts| == 3 && checks.validId(parts[1]) && checks.validAmount(parts[2]) && parts[1] in bank.accounts ==>
        var kind, amount := bank.accounts[parts[1]].kind, checks.parseAmount(parts[2]);
        (kind == Savings ==> (ok <==> amount <= 2500.0)) &&
        (kind == Checking ==> (ok <==> amount <= 1000.0)) &&
        (kind == Cd ==> !ok)
    {
      if |parts| != 3 {
        return false;
      }
      var id := parts[1];
      var amount := parts[2];
      ok := false;
      if checks.validId(id) && checks.validAmount(amount) {
        var depositAmount := checks.parseAmount(amount);
        var accountType := bank.GetAccountType(id);
        var found := bank.AccountExistsByQuickID(id);
        if found {
          if accountType.value == "savings" {
            ok := depositAmount <= 2500.0;
          } else if accountType.value == "checking" {
            ok := depositAmount <= 1000.0;
          } else {
            ok := false;
          }
        }
      }
    }
  }
}
