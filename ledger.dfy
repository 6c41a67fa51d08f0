/**
  The account ledger held by the dashboard view: a balance and a newest-first
  list of transaction records, and the two validate-then-mutate operations
  (withdraw, deposit) stated as functions on values. The class in module
  Dashboard performs them in place and is proved against these functions.
*/
module Ledger {
  import opened Wrappers

  /** The transaction types; `Transfer` occurs only in the seed data. */
  datatype Kind = Deposit | Withdrawal | Transfer

  /** A calendar date in the `YYYY-MM-DD` form of ISO 8601. */
  type Date = string

  datatype Transaction = Transaction(id: int, kind: Kind, amount: real, date: Date, description: string)

  /** The two pieces of ledger state: they are kept side by side, neither derived from the other. */
  datatype Account = Account(balance: real, transactions: seq<Transaction>)

  /** What an operation reports to the user (a toast in the original). */
  datatype Outcome = Success | InvalidAmount | InsufficientFunds

  /** The outcome of an operation together with the ledger it leaves behind. */
  datatype Applied = Applied(outcome: Outcome, account: Account)

  /** The state every mount of the dashboard starts from. */
  const SeedAccount: Account := Account(4550.0, [
    Transaction(1, Deposit, 1500.0, "2024-03-20", "Salary Deposit"),
    Transaction(2, Withdrawal, 80.0, "2024-03-19", "ATM Withdrawal"),
    Transaction(3, Transfer, 200.0, "2024-03-18", "Transfer to Sarah")
  ])

  /** Every record in the list has a strictly positive amount. */
  predicate AllPositive(txs: seq<Transaction>) {
    forall t :: t in txs ==> t.amount > 0.0
  }

  /** The ledger invariant: the balance is not negative and every amount is positive. */
  predicate Sound(acct: Account) {
    acct.balance >= 0.0 && AllPositive(acct.transactions)
  }

  /** The guard both handlers apply first: the parsed amount is a number and greater than zero. */
  predicate IsValidAmount(amount: Option<real>) {
    amount.Some? && amount.value > 0.0
  }

  function WithdrawalRecord(id: int, amount: real, today: Date): Transaction {
    Transaction(id, Withdrawal, amount, today, "ATM Withdrawal")
  }

  function DepositRecord(id: int, amount: real, today: Date): Transaction {
    Transaction(id, Deposit, amount, today, "Cash Deposit")
  }

  /**
    handleWithdraw: an invalid amount is rejected first, then an amount above
    the balance; otherwise the amount leaves the balance and a withdrawal
    record is put at the head of the list. A rejection changes nothing.
  */
  function ApplyWithdraw(acct: Account, amount: Option<real>, id: int, today: Date): (r: Applied)
    ensures r.outcome == InvalidAmount <==> !IsValidAmount(amount)
    ensures r.outcome == InsufficientFunds <==> IsValidAmount(amount) && amount.value > acct.balance
    ensures r.outcome == Success <==> IsValidAmount(amount) && amount.value <= acct.balance
    ensures r.outcome != Success ==> r.account == acct
    ensures r.outcome == Success ==>
      && r.account.balance == acct.balance - amount.value
      && |r.account.transactions| == |acct.transactions| + 1
      && r.account.transactions[0] == WithdrawalRecord(id, amount.value, today)
      && r.account.transactions[1..] == acct.transactions
  {
    if amount.None? || amount.value <= 0.0 then
      Applied(InvalidAmount, acct)
    else if amount.value > acct.balance then
      Applied(InsufficientFunds, acct)
    else
      var a := amount.value;
      Applied(Success, Account(acct.balance - a, [WithdrawalRecord(id, a, today)] + acct.transactions))
  }

  /**
    handleDeposit: an invalid amount is rejected and changes nothing; otherwise
    the amount is added to the balance and a deposit record is put at the head.
  */
  function ApplyDeposit(acct: Account, amount: Option<real>, id: int, today: Date): (r: Applied)
    ensures r.outcome != InsufficientFunds
    ensures r.outcome == Success <==> IsValidAmount(amount)
    ensures r.outcome != Success ==> r.account == acct
    ensures r.outcome == Success ==>
      && r.account.balance == acct.balance + amount.value
      && |r.account.transactions| == |acct.transactions| + 1
      && r.account.transactions[0] == DepositRecord(id, amount.value, today)
      && r.account.transactions[1..] == acct.transactions
  {
    if amount.None? || amount.value <= 0.0 then
      Applied(InvalidAmount, acct)
    else
      var a := amount.value;
      Applied(Success, Account(acct.balance + a, [DepositRecord(id, a, today)] + acct.transactions))
  }

  /** One submitted form on the dashboard, with the parsed amount, the new record's id and today's date. */
  datatype Operation =
    | WithdrawOp(amount: Option<real>, id: int, today: Date)
    | DepositOp(amount: Option<real>, id: int, today: Date)

  function Apply(acct: Account, op: Operation): Applied {
    match op
    case WithdrawOp(amount, id, today) => ApplyWithdraw(acct, amount, id, today)
    case DepositOp(amount, id, today) => ApplyDeposit(acct, amount, id, today)
  }

  /** The ledger after a sequence of submitted forms, oldest first. */
  function Replay(acct: Account, ops: seq<Operation>): Account
    decreases |ops|
  {
    if ops == [] then acct else Replay(Apply(acct, ops[0]).account, ops[1..])
  }

  /** The signed effect of a list of records on a balance: deposits add, withdrawals subtract, transfers count nothing. */
  function Net(txs: seq<Transaction>): real
  {
    if txs == [] then 0.0
    else
      var t := txs[0];
      (match t.kind
       case Deposit => t.amount
       case Withdrawal => -t.amount
       case Transfer => 0.0) + Net(txs[1..])
  }

  lemma SeedIsSound()
    ensures Sound(SeedAccount)
  {
  }

  /** Every record either operation creates has a positive amount, and the balance never goes below zero. */
  lemma ApplyPreservesSound(acct: Account, op: Operation)
    requires Sound(acct)
    ensures Sound(Apply(acct, op).account)
  {
  }

  /** Every ledger reachable from a sound one (in particular from the seed) is sound. */
  lemma {:induction false} ReplayPreservesSound(acct: Account, ops: seq<Operation>)
    requires Sound(acct)
    ensures Sound(Replay(acct, ops))
    decreases |ops|
  {
    if ops != [] {
      ApplyPreservesSound(acct, ops[0]);
      ReplayPreservesSound(Apply(acct, ops[0]).account, ops[1..]);
    }
  }

  /**
    The balance and the list move in lockstep: whatever an operation does to
    the balance is exactly the signed amount of the record it prepends.
  */
  lemma ApplyInLockstep(acct: Account, op: Operation)
    ensures var r := Apply(acct, op).account;
      r.balance - acct.balance == Net(r.transactions) - Net(acct.transactions)
  {
  }

  /** After any sequence of operations, the balance has moved by exactly the net of the records added. */
  lemma {:induction false} ReplayInLockstep(acct: Account, ops: seq<Operation>)
    ensures var r := Replay(acct, ops);
      r.balance - acct.balance == Net(r.transactions) - Net(acct.transactions)
    decreases |ops|
  {
    if ops != [] {
      ApplyInLockstep(acct, ops[0]);
      ReplayInLockstep(Apply(acct, ops[0]).account, ops[1..]);
    }
  }

  /** Every record created has a positive amount, whatever the state it was created in. */
  lemma CreatedRecordIsPositive(acct: Account, op: Operation)
    ensures var r := Apply(acct, op);
      r.outcome == Success ==> r.account.transactions[0].amount > 0.0
  {
  }
}
