/**
  The dashboard component's state as an object: the four state cells it
  updates in place (balance, the two amount input fields, the transaction
  list) and the two form handlers. Each handler is proved to do exactly what
  the corresponding function of module Ledger describes.
*/
module Dashboard {
  import opened Wrappers
  import opened Ledger
  import opened Projections

  class DashboardView {
    var balance: real
    var withdrawAmount: string
    var depositAmount: string
    var transactions: seq<Transaction>

    /** The ledger part of the state, as a value. */
    function Snapshot(): Account
      reads this
    {
      Account(balance, transactions)
    }

    ghost predicate Valid()
      reads this
    {
      Sound(Snapshot())
    }

    /** A fresh mount: the seed balance and records, both input fields empty. */
    constructor ()
      ensures Snapshot() == SeedAccount
      ensures withdrawAmount == "" && depositAmount == ""
      ensures Valid()
    {
      balance := SeedAccount.balance;
      withdrawAmount := "";
      depositAmount := "";
      transactions := SeedAccount.transactions;
    }

    /** The withdraw field's change handler. */
    method EditWithdrawAmount(text: string)
      modifies this`withdrawAmount
      ensures withdrawAmount == text
    {
      withdrawAmount := text;
    }

    /** The deposit field's change handler. */
    method EditDepositAmount(text: string)
      modifies this`depositAmount
      ensures depositAmount == text
    {
      depositAmount := text;
    }

    /**
      Submitting the withdraw form. `parseFloat` stands for the JavaScript
      library call (None for NaN); `id` and `today` stand for the clock reads.
      On success the withdraw field is cleared; on a rejection nothing changes.
    */
    method HandleWithdraw(parseFloat: string -> Option<real>, id: int, today: Date) returns (outcome: Outcome)
      modifies this
      ensures Applied(outcome, Snapshot()) == ApplyWithdraw(old(Snapshot()), parseFloat(old(withdrawAmount)), id, today)
      ensures withdrawAmount == if outcome == Success then "" else old(withdrawAmount)
      ensures depositAmount == old(depositAmount)
      ensures old(Valid()) ==> Valid()
    {
      ghost var before := Snapshot();
      var amount := parseFloat(withdrawAmount);
      if amount.None? || amount.value <= 0.0 {
        return InvalidAmount;
      }
      if amount.value > balance {
        return InsufficientFunds;
      }
      balance := balance - amount.value;
      transactions := [WithdrawalRecord(id, amount.value, today)] + transactions;
      withdrawAmount := "";
      outcome := Success;
      if Sound(before) {
        ApplyPreservesSound(before, WithdrawOp(amount, id, today));
      }
    }

    /** Submitting the deposit form; on success the deposit field is cleared. */
    method HandleDeposit(parseFloat: string -> Option<real>, id: int, today: Date) returns (outcome: Outcome)
      modifies this
      ensures Applied(outcome, Snapshot()) == ApplyDeposit(old(Snapshot()), parseFloat(old(depositAmount)), id, today)
      ensures depositAmount == if outcome == Success then "" else old(depositAmount)
      ensures withdrawAmount == old(withdrawAmount)
      ensures old(Valid()) ==> Valid()
    {
      ghost var before := Snapshot();
      var amount := parseFloat(depositAmount);
      if amount.None? || amount.value <= 0.0 {
        return InvalidAmount;
      }
      balance := balance + amount.value;
      transactions := [DepositRecord(id, amount.value, today)] + transactions;
      depositAmount := "";
      outcome := Success;
      if Sound(before) {
        ApplyPreservesSound(before, DepositOp(amount, id, today));
      }
    }
  }

  // ---------------------------------------------------------------------------
  // The worked examples of the ledger's behaviour, on the seed state

  /** Withdrawing 80 twice from the seed succeeds both times and leaves 4390, newest record first. */
  lemma WithdrawTwiceFromSeed(id1: int, id2: int, today: Date)
    ensures var r1 := ApplyWithdraw(SeedAccount, Some(80.0), id1, today);
      var r2 := ApplyWithdraw(r1.account, Some(80.0), id2, today);
      && r1.outcome == Success && r1.account.balance == 4470.0
      && r2.outcome == Success && r2.account.balance == 4390.0
      && r2.account.transactions == [WithdrawalRecord(id2, 80.0, today), WithdrawalRecord(id1, 80.0, today)] + SeedAccount.transactions
  {
  }

  /** A deposit of -5 is rejected as an invalid amount and leaves the seed untouched. */
  lemma NegativeDepositRejected(id: int, today: Date)
    ensures ApplyDeposit(SeedAccount, Some(-5.0), id, today) == Applied(InvalidAmount, SeedAccount)
  {
  }

  /** Withdrawing 999999 from the seed is rejected for insufficient funds and changes nothing. */
  lemma LargeWithdrawalRejected(id: int, today: Date)
    ensures ApplyWithdraw(SeedAccount, Some(999999.0), id, today) == Applied(InsufficientFunds, SeedAccount)
  {
  }

  /** The seed holds one deposit: the salary, at the head of the list. */
  lemma SeedDeposits()
    ensures Filter(SeedAccount.transactions, KindIs(Deposit)) == [SeedAccount.transactions[0]]
  {
    var s := SeedAccount.transactions;
    var p := KindIs(Deposit);
    assert p(s[0]) && !p(s[1]) && !p(s[2]);
    assert s[1..][1..][1..] == [];
  }

  /** After a deposit of 100 on the seed, the deposits tab shows two records, the new one first. */
  lemma DepositsTabAfterDeposit(id: int, today: Date)
    ensures var r := ApplyDeposit(SeedAccount, Some(100.0), id, today);
      RecentDeposits(r.account.transactions) == [DepositRecord(id, 100.0, today), SeedAccount.transactions[0]]
  {
    DepositRecentLists(SeedAccount, 100.0, id, today);
    SeedDeposits();
  }
}
