/** Sums over transactions: the `filter(...).reduce((acc, t) => acc + t.amount, 0)`
    folds that the store and every page compute, and the date orders the
    pages sort by. */
module Ledger {
  import opened Seqs
  import opened FinanceTypes
  import opened StableSort

  /** `reduce((acc, t) => acc + t.amount, 0)` */
  function SumAmounts(s: seq<Transaction>): int
  {
    if s == [] then 0 else s[0].amount + SumAmounts(s[1..])
  }

  predicate AllNonNegative(s: seq<Transaction>)
  {
    forall i :: 0 <= i < |s| ==> s[i].amount >= 0
  }

  function IsKind(k: TxType): Transaction -> bool
  {
    (t: Transaction) => t.kind == k
  }

  function OfKind(s: seq<Transaction>, k: TxType): seq<Transaction>
  {
    Filter(s, IsKind(k))
  }

  /** `getIncome`: the sum of the income-typed amounts. */
  function TotalIncome(s: seq<Transaction>): int
  {
    SumAmounts(OfKind(s, Income))
  }

  /** `getExpense`: the sum of the expense-typed amounts. */
  function TotalExpense(s: seq<Transaction>): int
  {
    SumAmounts(OfKind(s, Expense))
  }

  /** `t.type === 'income' ? t.amount : -t.amount` */
  function Signed(t: Transaction): int
  {
    if t.kind == Income then t.amount else -t.amount
  }

  function SignedSum(s: seq<Transaction>): int
  {
    if s == [] then 0 else Signed(s[0]) + SignedSum(s[1..])
  }

  function InCategory(c: string): Transaction -> bool
  {
    (t: Transaction) => t.category == c
  }

  /** The sum of the amounts of the transactions filed under the name `c`. */
  function CategoryTotal(s: seq<Transaction>, c: string): int
  {
    SumAmounts(Filter(s, InCategory(c)))
  }

  lemma {:induction false} SumAppend(a: seq<Transaction>, b: seq<Transaction>)
    ensures SumAmounts(a + b) == SumAmounts(a) + SumAmounts(b)
  {
    if a == [] {
      assert a + b == b;
    } else {
      assert (a + b)[1..] == a[1..] + b;
      SumAppend(a[1..], b);
    }
  }

  lemma {:induction false} SignedSumAppend(a: seq<Transaction>, b: seq<Transaction>)
    ensures SignedSum(a + b) == SignedSum(a) + SignedSum(b)
  {
    if a == [] {
      assert a + b == b;
    } else {
      assert (a + b)[1..] == a[1..] + b;
      SignedSumAppend(a[1..], b);
    }
  }

  lemma {:induction false} SumNonNegative(s: seq<Transaction>)
    requires AllNonNegative(s)
    ensures SumAmounts(s) >= 0
  {
    if s != [] {
      SumNonNegative(s[1..]);
    }
  }

  lemma {:induction false} SumOfFilterNonNegative(s: seq<Transaction>, p: Transaction -> bool)
    requires AllNonNegative(s)
    ensures SumAmounts(Filter(s, p)) >= 0
  {
    var f := Filter(s, p);
    FilterMembers(s, p);
    forall i | 0 <= i < |f| ensures f[i].amount >= 0 {
      var k :| 0 <= k < |s| && s[k] == f[i];
    }
    SumNonNegative(f);
  }

  /** With non-negative amounts, a sum over the elements that pass `p` is at
      most the sum over those that pass a weaker `q`. */
  lemma {:induction false} SumFilterMono(s: seq<Transaction>, p: Transaction -> bool, q: Transaction -> bool)
    requires AllNonNegative(s)
    requires forall i :: 0 <= i < |s| && p(s[i]) ==> q(s[i])
    ensures SumAmounts(Filter(s, p)) <= SumAmounts(Filter(s, q))
  {
    if s != [] {
      SumFilterMono(s[1..], p, q);
      SumAppend(if p(s[0]) then [s[0]] else [], Filter(s[1..], p));
      SumAppend(if q(s[0]) then [s[0]] else [], Filter(s[1..], q));
    }
  }

  /** With non-negative amounts, a sum over a filter is at most the whole sum. */
  lemma SumFilterAtMost(s: seq<Transaction>, p: Transaction -> bool)
    requires AllNonNegative(s)
    ensures SumAmounts(Filter(s, p)) <= SumAmounts(s)
  {
    var all := (t: Transaction) => true;
    SumFilterMono(s, p, all);
    FilterKeepsAll(s, all);
  }

  lemma OfKindNonNegative(s: seq<Transaction>, k: TxType)
    requires AllNonNegative(s)
    ensures AllNonNegative(OfKind(s, k))
  {
    var f := OfKind(s, k);
    FilterMembers(s, IsKind(k));
    forall i | 0 <= i < |f| ensures f[i].amount >= 0 {
      var j :| 0 <= j < |s| && s[j] == f[i];
    }
  }

  /** Prepending `t` adds its amount to exactly one of the two totals. */
  lemma TotalsOfPrepend(t: Transaction, s: seq<Transaction>)
    ensures TotalIncome([t] + s) == TotalIncome(s) + (if t.kind == Income then t.amount else 0)
    ensures TotalExpense([t] + s) == TotalExpense(s) + (if t.kind == Expense then t.amount else 0)
  {
    FilterAppend([t], s, IsKind(Income));
    FilterAppend([t], s, IsKind(Expense));
    SumAppend(OfKind([t], Income), OfKind(s, Income));
    SumAppend(OfKind([t], Expense), OfKind(s, Expense));
  }

  /** The signed running total of all transactions is income minus expense. */
  lemma {:induction false} SignedSumIsBalance(s: seq<Transaction>)
    ensures SignedSum(s) == TotalIncome(s) - TotalExpense(s)
  {
    if s != [] {
      SignedSumIsBalance(s[1..]);
      assert s == [s[0]] + s[1..];
      TotalsOfPrepend(s[0], s[1..]);
    }
  }

  /** Adding one transaction at the end of a prefix adds its amount to its
      category's total and to no other (the step of the by-category fold). */
  lemma CategoryTotalSnoc(s: seq<Transaction>, t: Transaction, c: string)
    ensures CategoryTotal(s + [t], c) == CategoryTotal(s, c) + (if t.category == c then t.amount else 0)
  {
    FilterAppend(s, [t], InCategory(c));
    SumAppend(Filter(s, InCategory(c)), Filter([t], InCategory(c)));
  }

  // ---- date orders used by `sort` on the pages ----

  function DateKey(t: Transaction): int
  {
    Ordinal(t.date)
  }

  function NegDateKey(t: Transaction): int
  {
    -Ordinal(t.date)
  }

  /** `sort((a, b) => date(a) - date(b))` */
  function OldestFirst(s: seq<Transaction>): seq<Transaction>
  {
    SortBy(s, DateKey)
  }

  /** `sort((a, b) => date(b) - date(a))` */
  function NewestFirst(s: seq<Transaction>): seq<Transaction>
  {
    SortBy(s, NegDateKey)
  }

  predicate IsNewestFirst(s: seq<Transaction>)
  {
    forall i, j :: 0 <= i < j < |s| ==> Ordinal(s[i].date) >= Ordinal(s[j].date)
  }

  lemma NewestFirstOrdered(s: seq<Transaction>)
    ensures IsNewestFirst(NewestFirst(s))
    ensures multiset(NewestFirst(s)) == multiset(s)
  {
    var r := NewestFirst(s);
    SortBySorted(s, NegDateKey);
    forall i, j | 0 <= i < j < |r| ensures Ordinal(r[i].date) >= Ordinal(r[j].date) {
      assert NegDateKey(r[i]) <= NegDateKey(r[j]);
    }
  }

  lemma {:induction false} SignedSumInsert(x: Transaction, s: seq<Transaction>, key: Transaction -> int)
    ensures SignedSum(Insert(x, s, key)) == Signed(x) + SignedSum(s)
  {
    if s != [] && key(x) > key(s[0]) {
      SignedSumInsert(x, s[1..], key);
      SignedSumAppend([s[0]], Insert(x, s[1..], key));
    } else if s != [] {
      SignedSumAppend([x], s);
    }
  }

  /** Sorting does not change the signed total. */
  lemma {:induction false} SignedSumSort(s: seq<Transaction>, key: Transaction -> int)
    ensures SignedSum(SortBy(s, key)) == SignedSum(s)
  {
    if s != [] {
      SignedSumSort(s[1..], key);
      SignedSumInsert(s[0], SortBy(s[1..], key), key);
    }
  }
}
