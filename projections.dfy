/**
  The read-only views the dashboard recomputes on every render: the five most
  recent transactions, the five most recent withdrawals and deposits, and
  today's deposit and withdrawal totals. Each is a filter, slice or reduce
  over the newest-first transaction list.
*/
module Projections {
  import opened Wrappers
  import opened Ledger

  /**
    `s.filter(p)`: the elements satisfying `p`, in their original order
    (FilterIsSubsequence), each as often as it occurs in `s` (FilterCounts).
  */
  function Filter<T(==)>(s: seq<T>, p: T -> bool): (r: seq<T>)
    ensures |r| <= |s|
    ensures forall i :: 0 <= i < |r| ==> p(r[i])
    ensures forall x :: x in s && p(x) ==> x in r
    ensures forall x :: x in r ==> x in s
    decreases |s|
  {
    if s == [] then [] else (if p(s[0]) then [s[0]] else []) + Filter(s[1..], p)
  }

  /** `s.slice(0, n)`: the first `n` elements, or all of them when there are fewer. */
  function Take<T>(s: seq<T>, n: nat): (r: seq<T>)
    ensures |r| == if |s| < n then |s| else n
    ensures forall i :: 0 <= i < |r| ==> r[i] == s[i]
  {
    if |s| <= n then s else s[..n]
  }

  /** `a` can be obtained from `b` by deleting elements: the relative order of `a` is that of `b`. */
  predicate IsSubsequence<T(==)>(a: seq<T>, b: seq<T>)
    decreases |b|
  {
    a == [] || (b != [] && ((a[0] == b[0] && IsSubsequence(a[1..], b[1..])) || IsSubsequence(a, b[1..])))
  }

  function KindIs(k: Kind): Transaction -> bool {
    (t: Transaction) => t.kind == k
  }

  function OnDay(k: Kind, day: Date): Transaction -> bool {
    (t: Transaction) => t.kind == k && t.date == day
  }

  /** The overview list: the first min(5, n) transactions. */
  function RecentTransactions(txs: seq<Transaction>): (r: seq<Transaction>)
    ensures |r| == if |txs| < 5 then |txs| else 5
    ensures r == txs[..|r|]
  {
    Take(txs, 5)
  }

  /**
    The withdraw tab's list: at most five withdrawals, the newest ones (a
    prefix of all withdrawals), in the order of the full list.
  */
  function RecentWithdrawals(txs: seq<Transaction>): (r: seq<Transaction>)
    ensures |r| == if |Filter(txs, KindIs(Withdrawal))| < 5 then |Filter(txs, KindIs(Withdrawal))| else 5
    ensures forall t :: t in r ==> t.kind == Withdrawal
    ensures r == Filter(txs, KindIs(Withdrawal))[..|r|]
    ensures IsSubsequence(r, txs)
    ensures |Filter(txs, KindIs(Withdrawal))| <= 5 ==> forall t :: t in txs && t.kind == Withdrawal ==> t in r
  {
    RecentOfKindSpec(txs, Withdrawal);
    Take(Filter(txs, KindIs(Withdrawal)), 5)
  }

  /**
    The deposit tab's list: at most five deposits, the newest ones (a prefix
    of all deposits), in the order of the full list.
  */
  function RecentDeposits(txs: seq<Transaction>): (r: seq<Transaction>)
    ensures |r| == if |Filter(txs, KindIs(Deposit))| < 5 then |Filter(txs, KindIs(Deposit))| else 5
    ensures forall t :: t in r ==> t.kind == Deposit
    ensures r == Filter(txs, KindIs(Deposit))[..|r|]
    ensures IsSubsequence(r, txs)
    ensures |Filter(txs, KindIs(Deposit))| <= 5 ==> forall t :: t in txs && t.kind == Deposit ==> t in r
  {
    RecentOfKindSpec(txs, Deposit);
    Take(Filter(txs, KindIs(Deposit)), 5)
  }

  /**
    `s.reduce((sum, t) => sum + t.amount, acc)`: a left-to-right running sum,
    which ends at `acc` plus the sum of the amounts.
  */
  function Fold(s: seq<Transaction>, acc: real): (r: real)
    ensures r == acc + Total(s)
    decreases |s|
  {
    if s == [] then acc else Fold(s[1..], acc + s[0].amount)
  }

  /** The sum of the amounts of `s`, as a reference definition. */
  function Total(s: seq<Transaction>): real
    decreases |s|
  {
    if s == [] then 0.0 else s[0].amount + Total(s[1..])
  }

  /**
    Today's total for one kind: the reduce over the records of that kind dated
    `today`. It is the sum of their amounts, and a record is summed exactly
    when it has that kind and that date.
  */
  function TodayTotal(txs: seq<Transaction>, k: Kind, today: Date): (r: real)
    ensures r == Total(Filter(txs, OnDay(k, today)))
    ensures forall t :: t in Filter(txs, OnDay(k, today)) <==> t in txs && t.kind == k && t.date == today
  {
    OnDayMembers(txs, k, today);
    Fold(Filter(txs, OnDay(k, today)), 0.0)
  }

  // ---------------------------------------------------------------------------
  // Filter, slice and subsequences

  lemma FilterPrepend<T>(t: T, s: seq<T>, p: T -> bool)
    ensures Filter([t] + s, p) == (if p(t) then [t] else []) + Filter(s, p)
  {
  }

  /** A filtered list keeps every occurrence of each element satisfying `p`, and nothing else. */
  lemma {:induction false} FilterCounts<T(!new)>(s: seq<T>, p: T -> bool)
    ensures forall x :: multiset(Filter(s, p))[x] == if p(x) then multiset(s)[x] else 0
    decreases |s|
  {
    if s != [] {
      FilterCounts(s[1..], p);
      assert s == [s[0]] + s[1..];
      assert multiset(s) == multiset([s[0]]) + multiset(s[1..]);
    }
  }

  /** A filtered list keeps the order of the list it was filtered from. */
  lemma {:induction false} FilterIsSubsequence<T>(s: seq<T>, p: T -> bool)
    ensures IsSubsequence(Filter(s, p), s)
    decreases |s|
  {
    if s != [] {
      FilterIsSubsequence(s[1..], p);
      var r := Filter(s, p);
      if p(s[0]) {
        assert r[0] == s[0] && r[1..] == Filter(s[1..], p);
      } else {
        assert r == Filter(s[1..], p);
      }
    }
  }

  lemma {:induction false} PrefixIsSubsequence<T>(a: seq<T>, b: seq<T>)
    requires |a| <= |b| && a == b[..|a|]
    ensures IsSubsequence(a, b)
    decreases |b|
  {
    if a != [] {
      assert a[1..] == b[1..][..|a| - 1];
      PrefixIsSubsequence(a[1..], b[1..]);
    }
  }

  lemma {:induction false} SubsequenceTransitive<T>(a: seq<T>, b: seq<T>, c: seq<T>)
    requires IsSubsequence(a, b) && IsSubsequence(b, c)
    ensures IsSubsequence(a, c)
    decreases |c|
  {
    if a != [] {
      // b is not empty, so c is not empty
      if b[0] == c[0] && IsSubsequence(b[1..], c[1..]) {
        if a[0] == b[0] && IsSubsequence(a[1..], b[1..]) {
          SubsequenceTransitive(a[1..], b[1..], c[1..]);
        } else {
          SubsequenceTransitive(a, b[1..], c[1..]);
        }
      } else {
        SubsequenceTransitive(a, b, c[1..]);
      }
    }
  }

  /**
    The withdrawals and deposits tabs: at most five records, all of the tab's
    kind, the newest of them first (a prefix of the filtered list), in the
    order of the full list; and when there are at most five such records in
    all, every one of them is shown.
  */
  lemma {:induction false} RecentOfKindSpec(txs: seq<Transaction>, k: Kind)
    ensures var r := Take(Filter(txs, KindIs(k)), 5);
      && |r| <= 5
      && (forall t :: t in r ==> t.kind == k)
      && r == Filter(txs, KindIs(k))[..|r|]
      && IsSubsequence(r, txs)
      && (|Filter(txs, KindIs(k))| <= 5 ==> forall t :: t in txs && t.kind == k ==> t in r)
  {
    var f := Filter(txs, KindIs(k));
    var r := Take(f, 5);
    assert r == f[..|r|];
    forall t | t in r
      ensures t.kind == k
    {
      var i :| 0 <= i < |r| && r[i] == t;
      assert KindIs(k)(f[i]);
    }
    forall t | t in txs && t.kind == k
      ensures |f| <= 5 ==> t in r
    {
      assert KindIs(k)(t);
    }
    PrefixIsSubsequence(r, f);
    FilterIsSubsequence(txs, KindIs(k));
    SubsequenceTransitive(r, f, txs);
  }

  // ---------------------------------------------------------------------------
  // Sums

  lemma {:induction false} TotalNonNegative(s: seq<Transaction>)
    requires AllPositive(s)
    ensures Total(s) >= 0.0
    decreases |s|
  {
    if s != [] {
      assert s[0] in s;
      assert AllPositive(s[1..]) by {
        forall t | t in s[1..] ensures t.amount > 0.0 {
          assert t in s;
        }
      }
      TotalNonNegative(s[1..]);
    }
  }

  /** A record passes today's filter for a kind exactly when it has that kind and that date. */
  lemma OnDayMembers(txs: seq<Transaction>, k: Kind, today: Date)
    ensures forall t :: t in Filter(txs, OnDay(k, today)) <==> t in txs && t.kind == k && t.date == today
  {
    forall t | t in txs && t.kind == k && t.date == today
      ensures t in Filter(txs, OnDay(k, today))
    {
      assert OnDay(k, today)(t);
    }
    forall t | t in Filter(txs, OnDay(k, today))
      ensures t.kind == k && t.date == today
    {
      var f := Filter(txs, OnDay(k, today));
      var i :| 0 <= i < |f| && f[i] == t;
      assert OnDay(k, today)(f[i]);
    }
  }


  /** When every amount is positive, today's totals are not negative. */
  lemma TodayTotalNonNegative(txs: seq<Transaction>, k: Kind, today: Date)
    requires AllPositive(txs)
    ensures TodayTotal(txs, k, today) >= 0.0
  {
    TotalNonNegative(Filter(txs, OnDay(k, today)));
  }

  /** Prepending one record changes today's total for a kind by its amount exactly when it matches. */
  lemma TodayTotalPrepend(t: Transaction, txs: seq<Transaction>, k: Kind, today: Date)
    ensures TodayTotal([t] + txs, k, today)
         == TodayTotal(txs, k, today) + (if t.kind == k && t.date == today then t.amount else 0.0)
  {
    FilterPrepend(t, txs, OnDay(k, today));
    var f := Filter(txs, OnDay(k, today));
    assert OnDay(k, today)(t) == (t.kind == k && t.date == today);
    if OnDay(k, today)(t) {
      assert ([t] + f)[1..] == f;
      assert Total([t] + f) == t.amount + Total(f);
    } else {
      assert Filter([t] + txs, OnDay(k, today)) == f;
    }
  }

  // ---------------------------------------------------------------------------
  // The projections after an operation

  /** A deposit made today raises today's deposits by its amount and leaves today's withdrawals alone. */
  lemma DepositTodayTotals(acct: Account, a: real, id: int, today: Date)
    requires a > 0.0
    ensures var r := ApplyDeposit(acct, Some(a), id, today).account;
      && TodayTotal(r.transactions, Deposit, today) == TodayTotal(acct.transactions, Deposit, today) + a
      && TodayTotal(r.transactions, Withdrawal, today) == TodayTotal(acct.transactions, Withdrawal, today)
  {
    var t := DepositRecord(id, a, today);
    assert ApplyDeposit(acct, Some(a), id, today).account.transactions == [t] + acct.transactions;
    TodayTotalPrepend(t, acct.transactions, Deposit, today);
    TodayTotalPrepend(t, acct.transactions, Withdrawal, today);
  }

  /** A successful withdrawal made today raises today's withdrawals by its amount and leaves today's deposits alone. */
  lemma WithdrawTodayTotals(acct: Account, a: real, id: int, today: Date)
    requires 0.0 < a <= acct.balance
    ensures var r := ApplyWithdraw(acct, Some(a), id, today).account;
      && TodayTotal(r.transactions, Withdrawal, today) == TodayTotal(acct.transactions, Withdrawal, today) + a
      && TodayTotal(r.transactions, Deposit, today) == TodayTotal(acct.transactions, Deposit, today)
  {
    var t := WithdrawalRecord(id, a, today);
    assert ApplyWithdraw(acct, Some(a), id, today).account.transactions == [t] + acct.transactions;
    TodayTotalPrepend(t, acct.transactions, Withdrawal, today);
    TodayTotalPrepend(t, acct.transactions, Deposit, today);
  }

  /** After a deposit the new record heads the deposits tab and the withdrawals tab is unchanged. */
  lemma DepositRecentLists(acct: Account, a: real, id: int, today: Date)
    requires a > 0.0
    ensures var r := ApplyDeposit(acct, Some(a), id, today).account;
      && RecentDeposits(r.transactions) == Take([DepositRecord(id, a, today)] + Filter(acct.transactions, KindIs(Deposit)), 5)
      && RecentDeposits(r.transactions)[0] == DepositRecord(id, a, today)
      && RecentWithdrawals(r.transactions) == RecentWithdrawals(acct.transactions)
  {
  }

  /** After a withdrawal the new record heads the withdrawals tab and the deposits tab is unchanged. */
  lemma WithdrawRecentLists(acct: Account, a: real, id: int, today: Date)
    requires 0.0 < a <= acct.balance
    ensures var r := ApplyWithdraw(acct, Some(a), id, today).account;
      && RecentWithdrawals(r.transactions) == Take([WithdrawalRecord(id, a, today)] + Filter(acct.transactions, KindIs(Withdrawal)), 5)
      && RecentWithdrawals(r.transactions)[0] == WithdrawalRecord(id, a, today)
      && RecentDeposits(r.transactions) == RecentDeposits(acct.transactions)
  {
  }
}
