# SecureBank dashboard and view router, modelled in Dafny

This project models the two pieces of logic in the SecureBank demonstration
web client that carry behaviour:

- the **ledger** held by the dashboard view: an account balance and a
  newest-first list of transaction records. Two form handlers change it.
  Withdraw rejects an invalid amount, then an amount above the balance.
  Deposit rejects an invalid amount. Each success updates the balance and
  prepends a record. The dashboard also recomputes read-only projections on
  every render: the five most recent transactions, the five most recent
  withdrawals and deposits, and today's deposit and withdrawal totals;
- the **view router** of the application shell: the current view (login,
  register or dashboard) and the authentication flag, changed by the
  callbacks each view renders.

Files:

- `wrappers.dfy`: module `Wrappers`, the `Option` type. `None` stands for a
  `parseFloat` result that is NaN.
- `ledger.dfy`: module `Ledger`. It holds the transaction record, the seed
  state, and the two operations as functions on values (`ApplyWithdraw`,
  `ApplyDeposit`). It proves the ledger invariant: the balance is not
  negative and every amount is positive. It also proves the lockstep
  coupling: the balance always moves by exactly the signed amount of the
  records added.
- `projections.dfy`: module `Projections`. It holds the JavaScript `filter`,
  `slice(0, n)` and `reduce` as functions, the dashboard's lists and totals,
  and lemmas about them. Some lemmas describe a projection on its own. Others
  describe how a projection changes after a deposit or a withdrawal.
- `dashboard.dfy`: module `Dashboard`. Class `DashboardView` holds the
  component's four state cells and its handlers, which update them in place.
  Each handler is proved equal to the matching `Ledger` function. The module
  also proves the worked examples on the seed state.
- `app.dfy`: module `Router`. Class `App` holds the router's two state cells
  and its handlers. `Next` and `Run` are the pure transition functions, and
  the module proves the reachability invariant.

Modelling choices:

- Amounts are exact `real` numbers.
- The `parseFloat` call is a parameter of type `string -> Option<real>`.
- The record id (`Date.now()`) and today's date are parameters. The date is
  the `YYYY-MM-DD` string the original cuts from `toISOString()`.
- Each outcome that the original reports as a toast is an `Outcome` value:
  `Success`, `InvalidAmount` or `InsufficientFunds`.
- Record ids come from the clock (`Date.now()`) and can repeat, so the model
  makes no uniqueness claim.

## Model

| member | source | states |
|---|---|---|
| `Ledger.ApplyWithdraw` | src/components/DashboardView.tsx:37-69 | Invalid amount (NaN or <= 0) iff rejected as InvalidAmount; a valid amount above the balance iff InsufficientFunds; success iff 0 < a <= balance; a rejection leaves the account unchanged; success subtracts a and puts one "ATM Withdrawal" record of amount a dated today at the head, the old list following unchanged |
| `Ledger.ApplyDeposit` | src/components/DashboardView.tsx:71-95 | Never reports insufficient funds; success iff the amount is a number > 0; a rejection changes nothing; success adds a and puts one "Cash Deposit" record of amount a dated today at the head of the unchanged old list |
| `Ledger.SeedIsSound` | src/components/DashboardView.tsx:28-35 | The seed state has a non-negative balance and only positive amounts |
| `Ledger.ApplyPreservesSound` | src/components/DashboardView.tsx:37-95 | Either operation keeps the balance >= 0 when it started >= 0 (the funds check precedes the subtraction) and keeps every amount in the list positive |
| `Ledger.ReplayPreservesSound` | src/components/DashboardView.tsx:28-95 | After any sequence of withdraw and deposit submissions from a sound ledger (in particular the seed), the balance is non-negative and all amounts positive |
| `Ledger.ApplyInLockstep` | src/components/DashboardView.tsx:56-89 | The change an operation makes to the balance equals the signed amount of the records it adds (deposits +, withdrawals -) |
| `Ledger.ReplayInLockstep` | src/components/DashboardView.tsx:28-95 | Over any sequence of operations the balance moves by exactly the net signed amount of the records added to the list |
| `Ledger.CreatedRecordIsPositive` | src/components/DashboardView.tsx:37-95 | Every record created by a successful operation has amount > 0, from any state |
| `Projections.Filter` | src/components/DashboardView.tsx:325-327 | Every kept element satisfies the predicate, every element of the input satisfying it is kept, nothing outside the input appears, and the result is no longer than the input |
| `Projections.FilterCounts` | src/components/DashboardView.tsx:325-327 | Each element satisfying the predicate is kept exactly as many times as it occurs in the input, and any other element occurs zero times, as JavaScript filter keeps every occurrence |
| `Projections.Take` | src/components/DashboardView.tsx:181 | slice(0, n) has length min(n, size) and agrees with the input position by position |
| `Projections.FilterIsSubsequence` | src/components/DashboardView.tsx:325-327 | A filtered list is a subsequence of its input, so newest-first order is kept |
| `Projections.RecentOfKindSpec` | src/components/DashboardView.tsx:325-327 | A per-kind list has at most 5 entries, all of that kind, is a prefix of the filtered list and a subsequence of the full list, and shows every record of that kind when there are at most 5 |
| `Projections.RecentWithdrawals` | src/components/DashboardView.tsx:325-327 | The withdrawals tab has min(5, number of withdrawals) entries, all withdrawals, is the prefix of the filtered list (the newest ones), is a subsequence of the full list, and shows every withdrawal when there are at most 5 |
| `Projections.RecentDeposits` | src/components/DashboardView.tsx:386-388 | The deposits tab has min(5, number of deposits) entries, all deposits, is the prefix of the filtered list (the newest ones), is a subsequence of the full list, and shows every deposit when there are at most 5 |
| `Projections.RecentTransactions` | src/components/DashboardView.tsx:181 | The overview list is the first min(5, n) transactions |
| `Projections.Fold` | src/components/DashboardView.tsx:432 | The left-to-right reduce from an initial value equals that value plus the sum of the amounts (an independent right-recursive sum) |
| `Projections.TodayTotal` | src/components/DashboardView.tsx:430-442 | Today's total for a kind is the sum of the amounts of the filtered records, and a record is summed iff it has that kind and today's date |
| `Projections.TodayTotalNonNegative` | src/components/DashboardView.tsx:430-442 | Today's totals are >= 0 when all amounts are positive |
| `Projections.TodayTotalPrepend` | src/components/DashboardView.tsx:430-442 | Prepending a record raises today's total for a kind by its amount when it has that kind and today's date, and leaves it unchanged otherwise |
| `Projections.DepositTodayTotals` | src/components/DashboardView.tsx:83-89 | A successful deposit made today raises today's deposit total by exactly its amount and leaves today's withdrawal total unchanged |
| `Projections.WithdrawTodayTotals` | src/components/DashboardView.tsx:57-63 | A successful withdrawal made today raises today's withdrawal total by exactly its amount and leaves today's deposit total unchanged |
| `Projections.DepositRecentLists` | src/components/DashboardView.tsx:386-388 | After a deposit the deposits tab is the new record followed by the previous deposits, capped at 5, and the withdrawals tab is unchanged |
| `Projections.WithdrawRecentLists` | src/components/DashboardView.tsx:325-327 | After a withdrawal the withdrawals tab is the new record followed by the previous withdrawals, capped at 5, and the deposits tab is unchanged |
| `Dashboard.DashboardView.constructor` | src/components/DashboardView.tsx:28-35 | A mount starts from the seed balance 4550 and the three seed records, with both amount fields empty and the invariant holding |
| `Dashboard.DashboardView.EditWithdrawAmount` | src/components/DashboardView.tsx:305 | The withdraw field takes the typed text; nothing else changes |
| `Dashboard.DashboardView.EditDepositAmount` | src/components/DashboardView.tsx:370 | The deposit field takes the typed text; nothing else changes |
| `Dashboard.DashboardView.HandleWithdraw` | src/components/DashboardView.tsx:37-69 | The outcome and the new balance and list are those of ApplyWithdraw on the parsed withdraw field; the withdraw field is cleared exactly on success; the deposit field is untouched; the invariant is kept |
| `Dashboard.DashboardView.HandleDeposit` | src/components/DashboardView.tsx:71-95 | The outcome and the new balance and list are those of ApplyDeposit on the parsed deposit field; the deposit field is cleared exactly on success; the withdraw field is untouched; the invariant is kept |
| `Dashboard.WithdrawTwiceFromSeed` | src/components/DashboardView.tsx:28-63 | Withdrawing 80 twice from the seed succeeds twice (4470, then 4390) and adds two withdrawal records, newest first |
| `Dashboard.NegativeDepositRejected` | src/components/DashboardView.tsx:73-81 | A deposit of -5 is rejected as invalid and the seed state is unchanged |
| `Dashboard.LargeWithdrawalRejected` | src/components/DashboardView.tsx:48-55 | Withdrawing 999999 from the seed is rejected for insufficient funds and changes nothing |
| `Dashboard.SeedDeposits` | src/components/DashboardView.tsx:31-35 | Of the seed records only the first (the salary) is a deposit |
| `Dashboard.DepositsTabAfterDeposit` | src/components/DashboardView.tsx:386-388 | After a deposit of 100 on the seed, the deposits tab holds exactly two records, the new one first |
| `Router.Handle` | src/App.tsx:12-39 | Login sets (dashboard, authenticated) and logout (login, signed out) whatever the prior state; "create account" shows register, and registering or "back to login" shows login, each keeping the authentication flag |
| `Router.Next` | src/App.tsx:12-44 | A callback the current view does not render changes nothing; the invariant isAuthenticated iff dashboard is kept; the dashboard is left only by logout; login from the login view always reaches the authenticated dashboard; logout returns to the initial state |
| `Router.Run` | src/App.tsx:9-44 | Any sequence of user actions from a consistent state ends in a consistent state |
| `Router.ReachableIffConsistent` | src/App.tsx:9-44 | A state is reachable from the initial (login, signed out) state iff it is authenticated exactly when on the dashboard |
| `Router.LoginIgnoresCredentials` | src/App.tsx:12-16 | On the login view, logging in gives the same state (dashboard, authenticated) whatever the email and password |
| `Router.OneViewPerCallback` | src/App.tsx:30-44 | Each callback is rendered by exactly one view |
| `Router.App.constructor` | src/App.tsx:9-10 | The router starts on the login view, not authenticated |
| `Router.App.HandleLogin` | src/App.tsx:12-16 | Sets authenticated and shows the dashboard, for any credentials |
| `Router.App.HandleRegister` | src/App.tsx:18-21 | Shows the login view, ignores the form and leaves the authentication flag unchanged |
| `Router.App.HandleLogout` | src/App.tsx:23-26 | Clears the authentication flag and shows the login view |
| `Router.App.ShowRegister` | src/App.tsx:33 | "Create account" shows the register view and leaves the authentication flag unchanged |
| `Router.App.ShowLogin` | src/App.tsx:39 | "Back to login" shows the login view and leaves the authentication flag unchanged |
| `Router.App.Dispatch` | src/App.tsx:30-44 | A user action has the effect Next gives it, so the invariant is kept |

## Left out

- Parsing the amount text (`parseFloat`) is not modelled. Its result is a
  parameter, and `None` stands for NaN. `parseFloat` can also return
  `Infinity`, which `real` cannot represent.
- The clock is not modelled. `Date.now()` ids and the
  `new Date().toISOString().split('T')[0]` date are parameters.
- IEEE-754 rounding of `balance - amount`, `balance + amount` and of the
  running sum is not captured, because amounts are exact reals. `toFixed(2)`
  display formatting is left out as presentation.
- Toast notifications are not modelled. Each is represented only by the
  `Outcome` it reports.
- The following are presentation with no contract and are left out: JSX
  rendering, styling, icons, the tab layout, and the full
  "Transaction History" list (lines 456-491), which shows the list unchanged.
- The "Manage Account" form and the "Send Money" / "Request Money" buttons
  have no handlers in the source, so there is nothing to model.
- No operation produces the `transfer` kind. It appears only in the seed
  data and in the `Kind` type.
- The login and registration views' own form state is not modelled. The
  views forward raw field values to the router's callbacks without any
  check, and the model takes those values as callback arguments.
- Dashboard.DashboardView.HandleWithdraw: the funds check reads the balance
  captured at render time, but the subtraction uses the updater's `prev`
  value. Events are processed one at a time, so the two values are the same.
  The model uses one value.
- Router.App.Dispatch: React batches the two state setters in a handler.
  The model applies them as one atomic step.
- Persistence is not modelled. The ledger is re-seeded on every mount of
  the dashboard, and the model does not connect it to the router's view
  changes.
- Idempotence of reading today's totals needs no lemma. Every projection is
  a function of the list, so it gives the same value on every read.
