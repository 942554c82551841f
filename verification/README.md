# Banking ledger: accounts, command validation and the invalid-command log

A Dafny model of the core of a small, single-threaded banking ledger simulator
written in Java. Three parts are modelled:

- **The bank** (`Ledger.Bank`): a registry that maps account ids to accounts and
  is updated in place. It supports adding an account (which replaces any account
  already filed under that id), looking an account up, asking for its type,
  counting accounts, testing whether an id exists, and depositing or
  withdrawing by id. Accounts are values (`Accounts.Account`) with an id, a
  kind (savings, checking or CD), an APR and a balance. A deposit adds its
  amount. A withdrawal lowers the balance but clamps it at zero instead of
  failing. Money is an exact `real`.
- **The command validators**: `CreateCommandValidation.ValidateCreateCommand`
  decides `create <kind> <id> <apr> [<initial balance>]` commands. The kind
  token is compared after lower-casing, and only a CD takes the fifth token.
  `DepositCommandValidation.DepositCommandValidator.ValidateDepositCommand`
  decides `deposit <id> <amount>` commands against a bank. The account must
  exist. A single deposit may be at most 2500 into savings and at most 1000
  into checking. Any other kind of account takes no deposit.
- **The invalid-command log** (`CommandStorage.CommandStore`): an append-only
  list of command strings that keeps order and duplicates. Its getter hands
  out a copy.

The token checks the validators call (valid id, amount, APR, account type,
initial balance) and the conversion of an amount token to a number are not
part of this model. They are fields of `ValidatorChecks.Checks` and are passed
in as arbitrary functions, so every validator property of the model holds
whatever those checks decide (the conversion is taken to succeed on every
token the amount check accepts; see "## Left out").

Three behaviours of the code shape the model:

- Adding an account whose id is already present replaces the stored account.
  It does not fail with a duplicate-account error, because the code stores
  accounts with a map `put`.
- Depositing to or withdrawing from a missing id is excluded by a precondition.
  It is not an account-not-found error, because the code dereferences the
  looked-up account without checking it.
- `Bank.java` keys accounts by `int`. The deposit validator and the tests use
  string ids. The model uses `string` ids throughout.

## Model

| member | source | states |
|---|---|---|
| `Accounts.Deposit` | src/test/java/banking/BankTest.java:57-64 | a deposit raises the balance by exactly the amount and keeps the id, kind and APR |
| `Accounts.Withdraw` | src/test/java/banking/BankTest.java:151-158 | a withdrawal takes exactly the amount when the balance covers it, and otherwise leaves a balance of zero; the balance is never negative |
| `Accounts.DepositsAccumulate` | src/test/java/banking/BankTest.java:79-87 | any sequence of deposits raises the balance by their total |
| `Accounts.CoveredWithdrawalsSubtract` | src/test/java/banking/BankTest.java:90-99 | non-negative withdrawals whose total the balance covers lower it by exactly that total |
| `Accounts.WithdrawalsNeverOverdraw` | src/test/java/banking/BankTest.java:151-168 | after any sequence of withdrawals a non-negative balance is still non-negative, and the account keeps its id, kind and APR |
| `Accounts.DepositThenWithdrawRestores` | src/main/java/Bank.java:31-39 | withdrawing what was just deposited gives back the original account |
| `Ledger.Bank.constructor` | src/main/java/Bank.java:7-9 | a new bank holds no accounts |
| `Ledger.Bank.AddAccount` | src/main/java/Bank.java:11-13 | the account is filed under its id and replaces any account already there; the count grows by one for a new id and stays the same otherwise; every account stays filed under its own id |
| `Ledger.Bank.GetAccountById` | src/main/java/Bank.java:15-17 | returns the stored account exactly when the id is present, and that account carries the id asked for |
| `Ledger.Bank.GetAccountType` | src/main/java/Bank.java:19-25 | returns the stored account's type name when the id is present, and nothing otherwise |
| `Ledger.Bank.GetAccountCount` | src/main/java/Bank.java:27-29 | the number of distinct ids in the bank |
| `Ledger.Bank.DepositById` | src/main/java/Bank.java:31-34 | the id must exist; that account's balance rises by the amount, and no other account and no count changes |
| `Ledger.Bank.WithdrawById` | src/main/java/Bank.java:36-39 | the id must exist; that account's balance becomes the old balance minus the amount, or zero if the amount is larger, and no other account and no count changes |
| `Ledger.Bank.AccountExistsByQuickID` | src/main/java/Bank.java:41-43 | true exactly when the id is a key of the bank |
| `CreateCommandValidation.ToLower` | src/main/java/CreateCommandValidator.java:7 | the lower-cased token has the same length and each character lower-cased |
| `CreateCommandValidation.ToLowerIdempotent` | src/main/java/CreateCommandValidator.java:7 | lower-casing twice is lower-casing once |
| `CreateCommandValidation.ValidateCreateCommand` | src/main/java/CreateCommandValidator.java:2-23 | fewer than 4 tokens is rejected; acceptance needs the kind, id and APR checks to pass and 4 or 5 tokens; a cd command is accepted iff it has exactly 5 tokens and a valid initial balance; any other kind is accepted iff it has exactly 4 tokens |
| `CreateCommandValidation.KindCaseInsensitive` | src/main/java/CreateCommandValidator.java:7-22 | two kind tokens that lower-case alike get the same verdict |
| `CreateCommandValidation.LowerCasedKindSameVerdict` | src/test/java/banking/CreateCommandProcessorTest.java:18-40 | replacing the kind token by its lower-case form never changes the verdict |
| `CreateCommandValidation.MixedCaseKindsFold` | src/test/java/banking/CreateCommandProcessorTest.java:20-36 | `savingS`, `cHecKinG` and `Cd` lower-case to `savings`, `checking` and `cd` |
| `DepositCommandValidation.DepositCommandValidator.constructor` | src/main/java/banking/DepositCommandValidator.java:4-6 | the validator consults the bank it is given |
| `DepositCommandValidation.DepositCommandValidator.ValidateDepositCommand` | src/main/java/banking/DepositCommandValidator.java:8-28 | rejects any token count other than 3, a failed id or amount check, and a missing account; for savings it accepts iff the amount is at most 2500, for checking iff at most 1000, and for a CD never; it changes nothing |
| `CommandStorage.CommandStore.constructor` | src/main/java/banking/CommandStore.java:9-11 | a new log is empty |
| `CommandStorage.CommandStore.AddInvalidCommand` | src/main/java/banking/CommandStore.java:13-15 | the command is appended at the end, without deduplication, so the length grows by exactly one |
| `CommandStorage.CommandStore.GetAllInvalidCommands` | src/main/java/banking/CommandStore.java:17-19 | returns the logged commands in insertion order and changes nothing |

The methods in module `Scenarios` replay the bank tests' and the log's
scenarios as clients. Each one uses only the contracts above.

## Left out

- Interest, `passTime`, the month counter, CD compounding and the checking low-balance penalty: the tests exercise them, but their code is not part of this model, and they rest on floating-point arithmetic.
- `transfer`, `addSavingsAccount`, `addCheckingAccount`, `addCDAccount` and `getMonths`: they belong to a string-keyed bank that is not part of this model; `Bank.java` has none of them.
- The `Account` class hierarchy is not part of this model: only the deposit and withdraw behaviour the tests fix, and the type names below, are modelled.
- Ledger.Bank.GetAccountType: the type names an account reports are assumed to be "savings", "checking" and "cd". The first two are the strings the deposit validator compares against; "cd" is the kind token the create validator tests for. No code in this model fixes what the account classes return.
- The validators' token checks (`validId`, `validAmount`, `validApr`, `validAccountType`, `validInitalBalance`) and `Double.parseDouble` are not part of this model: they are arbitrary function parameters.
- DepositCommandValidation.DepositCommandValidator.ValidateDepositCommand: the conversion of the amount token is a total function, so the model assumes every token the amount check accepts also parses; the Java validator instead throws `NumberFormatException` out of the call for such a token, and that exception path is not modelled.
- `CommandProcessor`, `MasterControl` and `InvalidCommands` are not part of this model.
- IEEE `double` rounding: balances and amounts are exact reals.
- CreateCommandValidation.ToLower: only ASCII capital letters are lower-cased; Java's locale-dependent Unicode case mapping is not modelled.
- Ledger.Bank.GetAccountById: accounts are stored and returned as immutable values, so no change made through an added or returned account reaches the bank; the Java bank stores and hands out the caller's own `Account` reference, and a change made through it would be seen by the bank.
- CommandStorage.CommandStore.GetAllInvalidCommands: the copy is a Dafny sequence, a value, so a caller cannot mutate it at all; the aliasing of a mutable Java list is not modelled.
