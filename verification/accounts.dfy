/**
 * Accounts as values. The Java `Account` hierarchy is not part of this model;
 * what is modelled is the behaviour the bank tests pin down: a deposit adds
 * its amount, and a withdrawal lowers the balance but never below zero.
 * Money is an exact `real`, not an IEEE double.
 */
module Accounts {
  /** Account identifiers; the bank and the validators key accounts by string. */
  type Id = string

  /** The three account kinds of the ledger. */
  datatype Kind = Savings | Checking | Cd

  /** The type name an account reports, as the deposit validator compares it. */
  function KindName(kind: Kind): string
  {
    match kind
    case Savings => "savings"
    case Checking => "checking"
    case Cd => "cd"
  }

  datatype Account = Account(id: Id, kind: Kind, apr: real, balance: real)

  /** Identity, kind and rate are the same in both accounts; only the balance may differ. */
  predicate SameAccount(a: Account, b: Account)
  {
    a.id == b.id && a.kind == b.kind && a.apr == b.apr
  }

  /** A deposit raises the balance by exactly the amount; nothing caps it here. */
  function Deposit(a: Account, amount: real): (r: Account)
    ensures SameAccount(r, a)
    ensures r.balance - a.balance == amount
  {
    a.(balance := a.balance + amount)
  }

  /**
   * A withdrawal that asks for more than the balance empties the account
   * instead of failing; otherwise it takes exactly the amount.
   */
  function Withdraw(a: Account, amount: real): (r: Account)
    ensures SameAccount(r, a)
    ensures r.balance >= 0.0
    ensures amount <= a.balance ==> a.balance - r.balance == amount
    ensures amount > a.balance ==> r.balance == 0.0
  {
    a.(balance := if amount > a.balance then 0.0 else a.balance - amount)
  }

  /** Total of a sequence of amounts. */
  function Sum(xs: seq<real>): real
  {
    if xs == [] then 0.0 else xs[0] + Sum(xs[1..])
  }

  /** Every amount is non-negative. */
  predicate NonNegative(xs: seq<real>)
  {
    forall i :: 0 <= i < |xs| ==> xs[i] >= 0.0
  }

  /** The account after depositing each amount of `xs` in turn. */
  function DepositEach(a: Account, xs: seq<real>): Account
    decreases xs
  {
    if xs == [] then a else DepositEach(Deposit(a, xs[0]), xs[1..])
  }

  /** The account after withdrawing each amount of `xs` in turn. */
  function WithdrawEach(a: Account, xs: seq<real>): Account
    decreases xs
  {
    if xs == [] then a else WithdrawEach(Withdraw(a, xs[0]), xs[1..])
  }

  lemma {:induction false} SumNonNegative(xs: seq<real>)
    requires NonNegative(xs)
    ensures Sum(xs) >= 0.0
  {
    if xs != [] {
      SumNonNegative(xs[1..]);
    }
  }

  /** Repeated deposits accumulate: the balance grows by the total deposited. */
  lemma {:induction false} DepositsAccumulate(a: Account, xs: seq<real>)
    ensures SameAccount(DepositEach(a, xs), a)
    ensures DepositEach(a, xs).balance == a.balance + Sum(xs)
    decreases xs
  {
    if xs != [] {
      DepositsAccumulate(Deposit(a, xs[0]), xs[1..]);
    }
  }

  /** However many withdrawals are made, a non-negative balance stays non-negative. */
  lemma {:induction false} WithdrawalsNeverOverdraw(a: Account, xs: seq<real>)
    requires a.balance >= 0.0
    ensures SameAccount(WithdrawEach(a, xs), a)
    ensures WithdrawEach(a, xs).balance >= 0.0
    decreases xs
  {
    if xs != [] {
      WithdrawalsNeverOverdraw(Withdraw(a, xs[0]), xs[1..]);
    }
  }

  /**
   * Withdrawals whose total the balance covers are taken in full, so the
   * balance falls by exactly that total.
   */
  lemma {:induction false} CoveredWithdrawalsSubtract(a: Account, xs: seq<real>)
    requires NonNegative(xs) && Sum(xs) <= a.balance
    ensures WithdrawEach(a, xs).balance == a.balance - Sum(xs)
    decreases xs
  {
    if xs != [] {
      SumNonNegative(xs[1..]);
      assert NonNegative(xs[1..]) by {
        forall i | 0 <= i < |xs[1..]| ensures xs[1..][i] >= 0.0 {
          assert xs[1..][i] == xs[i + 1];
        }
      }
      CoveredWithdrawalsSubtract(Withdraw(a, xs[0]), xs[1..]);
    }
  }

  /** A withdrawal of what was just deposited restores the account. */
  lemma DepositThenWithdrawRestores(a: Account, amount: real)
    requires a.balance >= 0.0
    ensures Withdraw(Deposit(a, amount), amount) == a
  {
  }
}
