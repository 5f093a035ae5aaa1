/** The insights page: last month's spending and this month's income, the
    balance projected month by month under the current trend and under a
    budget, the three largest expense categories, and the advice drawn from
    the savings rate and the largest category. */
module Insights {
  import opened Seqs
  import opened FinanceTypes
  import opened Ledger
  import opened StableSort
  import opened Aggregation
  import opened Budget

  // ---- historical figures ----

  /** Whether a transaction is dated on or after `start` (`new Date(t.date) >= oneMonthAgo`). */
  function OnOrAfter(start: Date): Transaction -> bool
  {
    (t: Transaction) => DateLe(start, t.date)
  }

  /** `stats.avgMonthlyExpense`: the expenses dated from one month before
      `now` onwards. */
  function AvgMonthlyExpense(transactions: seq<Transaction>, now: Date): int
    requires ValidDate(now)
  {
    SumAmounts(OfKind(Filter(transactions, OnOrAfter(OneMonthBefore(now))), Expense))
  }

  /** Whether a transaction is dated in the calendar month of `now`. */
  function InMonthOf(now: Date): Transaction -> bool
  {
    (t: Transaction) => SameMonth(t.date, now)
  }

  /** `lastMonthIncome`: the income dated in the calendar month of `now`. */
  function ThisMonthIncome(transactions: seq<Transaction>, now: Date): int
  {
    SumAmounts(OfKind(Filter(transactions, InMonthOf(now)), Income))
  }

  /** A date of the current month is never before the start of the window,
      as long as the day of `now` exists in the previous month. */
  lemma WindowCoversCurrentMonth(now: Date, d: Date)
    requires ValidDate(now) && now.day <= 28 && SameMonth(d, now)
    ensures DateLe(OneMonthBefore(now), d)
  {
  }

  /** With non-negative amounts, the windowed expense lies between this
      month's expenses (when the day of `now` exists in the previous month)
      and all expenses. */
  lemma AvgMonthlyExpenseBounds(transactions: seq<Transaction>, now: Date)
    requires ValidDate(now) && AllNonNegative(transactions)
    ensures 0 <= AvgMonthlyExpense(transactions, now) <= TotalExpense(transactions)
    ensures now.day <= 28 ==>
              SumAmounts(Filter(transactions, IsMonthExpense(now))) <= AvgMonthlyExpense(transactions, now)
  {
    var window := OnOrAfter(OneMonthBefore(now));
    var both := (t: Transaction) => DateLe(OneMonthBefore(now), t.date) && t.kind == Expense;
    FilterFilter(transactions, window, IsKind(Expense), both);
    FilterFilter(transactions, IsKind(Expense), window, both);
    OfKindNonNegative(transactions, Expense);
    SumOfFilterNonNegative(OfKind(transactions, Expense), window);
    SumFilterAtMost(OfKind(transactions, Expense), window);
    if now.day <= 28 {
      forall i | 0 <= i < |transactions| && IsMonthExpense(now)(transactions[i])
        ensures both(transactions[i])
      {
        WindowCoversCurrentMonth(now, transactions[i].date);
      }
      SumFilterMono(transactions, IsMonthExpense(now), both);
    }
  }

  /** On the last day of March the window starts on 3 March (in a common
      year), so an expense of 2 March is left out. */
  lemma WindowAtMonthEnd()
    ensures OneMonthBefore(Date(2025, 3, 31)) == Date(2025, 3, 3)
    ensures AvgMonthlyExpense([Transaction("a", 100, Expense, "Food", Date(2025, 3, 2), "")], Date(2025, 3, 31)) == 0
  {
    var t := Transaction("a", 100, Expense, "Food", Date(2025, 3, 2), "");
    assert !OnOrAfter(Date(2025, 3, 3))(t);
    assert Filter([t], OnOrAfter(Date(2025, 3, 3))) == [];
  }

  /** With non-negative amounts, this month's income is at most all income. */
  lemma ThisMonthIncomeBounds(transactions: seq<Transaction>, now: Date)
    requires AllNonNegative(transactions)
    ensures 0 <= ThisMonthIncome(transactions, now) <= TotalIncome(transactions)
  {
    var both := (t: Transaction) => SameMonth(t.date, now) && t.kind == Income;
    FilterFilter(transactions, InMonthOf(now), IsKind(Income), both);
    FilterFilter(transactions, IsKind(Income), InMonthOf(now), both);
    OfKindNonNegative(transactions, Income);
    SumOfFilterNonNegative(OfKind(transactions, Income), InMonthOf(now));
    SumFilterAtMost(OfKind(transactions, Income), InMonthOf(now));
  }

  // ---- projection ----

  /** `monthlyBudgetInput ? Number(monthlyBudgetInput) : avg * 0.9`: an empty
      input (`None`) suggests a tenth less than the current spending. */
  function BudgetExpense(monthlyBudgetInput: Option<real>, avgExpense: int): real
  {
    match monthlyBudgetInput
    case None => avgExpense as real * 0.9
    case Some(v) => v
  }

  /** `new Date(year, month + i, 1)`: the first day of the `i`-th month after
      the month of `now`, rolling over into later years. */
  function MonthStart(now: Date, i: nat): (d: Date)
    requires 1 <= now.month <= 12
    ensures ValidDate(d) && d.day == 1
  {
    var k := now.month - 1 + i;
    Date(now.year + k / 12, k % 12 + 1, 1)
  }

  /** The months of the projection follow one another. */
  lemma MonthStartStep(now: Date, i: nat)
    requires 1 <= now.month <= 12
    ensures MonthStart(now, 0) == Date(now.year, now.month, 1)
    ensures MonthStart(now, i).month < 12 ==>
              MonthStart(now, i + 1) == Date(MonthStart(now, i).year, MonthStart(now, i).month + 1, 1)
    ensures MonthStart(now, i).month == 12 ==>
              MonthStart(now, i + 1) == Date(MonthStart(now, i).year + 1, 1, 1)
  {
    var k := now.month - 1 + i;
    if k % 12 == 11 {
      assert (k + 1) / 12 == k / 12 + 1 && (k + 1) % 12 == 0;
    } else {
      assert (k + 1) / 12 == k / 12 && (k + 1) % 12 == k % 12 + 1;
    }
  }

  /** One point of the projection chart. */
  datatype ProjectionPoint = ProjectionPoint(month: Date, trend: int, optimized: real)

  /** The trend line after `i` months: the balance plus `i` months of income
      less the current spending. */
  function TrendAt(balance: int, income: int, avgExpense: int, i: nat): int
  {
    balance + i * (income - avgExpense)
  }

  /** The budget line after `i` months: the balance plus `i` months of income
      less the budgeted spending. */
  function OptimizedAt(balance: int, income: int, budgetExpense: real, i: nat): real
  {
    balance as real + i as real * (income as real - budgetExpense)
  }

  /** The projection loop: `months + 1` points, starting from the current
      balance and adding one month's net change per step. */
  method Project(now: Date, months: nat, balance: int, income: int, avgExpense: int, budgetExpense: real)
    returns (data: seq<ProjectionPoint>)
    requires 1 <= now.month <= 12
    ensures |data| == months + 1
    ensures forall i :: 0 <= i < |data| ==>
              data[i] == ProjectionPoint(MonthStart(now, i), TrendAt(balance, income, avgExpense, i),
                                         OptimizedAt(balance, income, budgetExpense, i))
  {
    var trendBalance := balance;
    var budgetBalance := balance as real;
    data := [];
    var i := 0;
    while i <= months
      invariant 0 <= i <= months + 1
      invariant |data| == i
      invariant trendBalance == TrendAt(balance, income, avgExpense, i)
      invariant budgetBalance == OptimizedAt(balance, income, budgetExpense, i)
      invariant forall k :: 0 <= k < i ==>
                  data[k] == ProjectionPoint(MonthStart(now, k), TrendAt(balance, income, avgExpense, k),
                                             OptimizedAt(balance, income, budgetExpense, k))
    {
      data := data + [ProjectionPoint(MonthStart(now, i), trendBalance, budgetBalance)];
      trendBalance := trendBalance + (income - avgExpense);
      budgetBalance := budgetBalance + (income as real - budgetExpense);
      i := i + 1;
    }
  }

  /** Both lines start at the balance; the budget line runs above the trend
      line by the monthly saving each month, so it never falls below it when
      the budget is at most the current spending, which holds for the
      default suggestion whenever spending is not negative. */
  lemma ProjectionLines(balance: int, income: int, avgExpense: int, monthlyBudgetInput: Option<real>, i: nat)
    ensures TrendAt(balance, income, avgExpense, 0) == balance
    ensures OptimizedAt(balance, income, BudgetExpense(monthlyBudgetInput, avgExpense), 0) == balance as real
    ensures OptimizedAt(balance, income, BudgetExpense(monthlyBudgetInput, avgExpense), i)
            - TrendAt(balance, income, avgExpense, i) as real
         == i as real * (avgExpense as real - BudgetExpense(monthlyBudgetInput, avgExpense))
    ensures BudgetExpense(monthlyBudgetInput, avgExpense) <= avgExpense as real ==>
              OptimizedAt(balance, income, BudgetExpense(monthlyBudgetInput, avgExpense), i)
              >= TrendAt(balance, income, avgExpense, i) as real
    ensures monthlyBudgetInput == None && avgExpense >= 0 ==>
              BudgetExpense(monthlyBudgetInput, avgExpense) <= avgExpense as real
  {
    var b := BudgetExpense(monthlyBudgetInput, avgExpense);
    var n := i as real;
    assert (i * (income - avgExpense)) as real == n * (income as real - avgExpense as real);
    assert n * (income as real - b) - n * (income as real - avgExpense as real) == n * (avgExpense as real - b);
    if b <= avgExpense as real {
      assert n * (avgExpense as real - b) >= 0.0;
    }
  }

  /** `projectedData`: the projection from the current balance, this month's
      income, the windowed spending and the chosen budget. */
  method ProjectedData(transactions: seq<Transaction>, now: Date, projectionMonths: nat, monthlyBudgetInput: Option<real>)
    returns (data: seq<ProjectionPoint>)
    requires ValidDate(now)
    ensures |data| == projectionMonths + 1
    ensures forall i :: 0 <= i < |data| ==>
              data[i].month == MonthStart(now, i) &&
              data[i].trend == TrendAt(SignedSum(transactions), ThisMonthIncome(transactions, now),
                                       AvgMonthlyExpense(transactions, now), i) &&
              data[i].optimized == OptimizedAt(SignedSum(transactions), ThisMonthIncome(transactions, now),
                                               BudgetExpense(monthlyBudgetInput, AvgMonthlyExpense(transactions, now)), i)
  {
    var avg := AvgMonthlyExpense(transactions, now);
    data := Project(now, projectionMonths, SignedSum(transactions), ThisMonthIncome(transactions, now),
                    avg, BudgetExpense(monthlyBudgetInput, avg));
  }

  // ---- top expenses ----

  /** `sort(([, a], [, b]) => b - a)`: largest total first. */
  function ByTotalDesc(e: Entry): int
  {
    -e.total
  }

  /** `topExpenses`: the expense record's entries, largest total first,
      cut to three. */
  function TopExpensesOf(transactions: seq<Transaction>): seq<Entry>
  {
    Take(SortBy(Entries(OfKind(transactions, Expense)), ByTotalDesc), 3)
  }

  /** The page's computation, folding the expenses into the record in a loop. */
  method TopExpenses(transactions: seq<Transaction>) returns (top: seq<Entry>)
    ensures top == TopExpensesOf(transactions)
  {
    var expenses := OfKind(transactions, Expense);
    var keys, byCategory := Tally(expenses);
    forall i | 0 <= i < |keys| ensures keys[i] in byCategory {
      assert keys[i] in Names(expenses);
    }
    var entries := seq(|keys|, i requires 0 <= i < |keys| => Entry(keys[i], byCategory[keys[i]]));
    assert entries == Entries(expenses);
    top := Take(SortBy(entries, ByTotalDesc), 3);
  }

  /** At most three entries, one per expense category while there are fewer
      than three; each is an expense category with its expense total. */
  lemma TopExpensesContents(transactions: seq<Transaction>)
    ensures |TopExpensesOf(transactions)| == if |Names(OfKind(transactions, Expense))| <= 3
                                            then |Names(OfKind(transactions, Expense))| else 3
    ensures forall i :: 0 <= i < |TopExpensesOf(transactions)| ==>
              TopExpensesOf(transactions)[i].name in Names(OfKind(transactions, Expense)) &&
              TopExpensesOf(transactions)[i].total
                == CategoryTotal(OfKind(transactions, Expense), TopExpensesOf(transactions)[i].name)
  {
    TopEntriesOfRecord(OfKind(transactions, Expense));
  }

  lemma TopEntriesOfRecord(s: seq<Transaction>)
    ensures |Take(SortBy(Entries(s), ByTotalDesc), 3)| == if |Names(s)| <= 3 then |Names(s)| else 3
    ensures forall i :: 0 <= i < |Take(SortBy(Entries(s), ByTotalDesc), 3)| ==>
              Take(SortBy(Entries(s), ByTotalDesc), 3)[i].name in Names(s) &&
              Take(SortBy(Entries(s), ByTotalDesc), 3)[i].total == CategoryTotal(s, Take(SortBy(Entries(s), ByTotalDesc), 3)[i].name)
  {
    var e := Entries(s);
    var top := Take(SortBy(e, ByTotalDesc), 3);
    TopEntriesFrom(e);
    forall i | 0 <= i < |top| ensures top[i].name in Names(s) && top[i].total == CategoryTotal(s, top[i].name) {
      var j :| 0 <= j < |e| && e[j] == top[i];
      assert e[j] == Entry(Names(s)[j], CategoryTotal(s, Names(s)[j]));
    }
  }

  /** Every kept entry is one of the record's entries. */
  lemma TopEntriesFrom(e: seq<Entry>)
    ensures |Take(SortBy(e, ByTotalDesc), 3)| == if |e| <= 3 then |e| else 3
    ensures forall i :: 0 <= i < |Take(SortBy(e, ByTotalDesc), 3)| ==>
              exists j :: 0 <= j < |e| && e[j] == Take(SortBy(e, ByTotalDesc), 3)[i]
  {
    var sorted := SortBy(e, ByTotalDesc);
    var top := Take(sorted, 3);
    forall i | 0 <= i < |top| ensures exists j :: 0 <= j < |e| && e[j] == top[i] {
      assert top[i] == sorted[i];
      assert sorted[i] in multiset(e);
      var j :| 0 <= j < |e| && e[j] == sorted[i];
    }
  }

  /** Ranking any record's entries: largest first; no repeats when the record
      has none; no entry left out is larger than one kept. */
  lemma RankEntries(e: seq<Entry>)
    ensures forall i, j :: 0 <= i < j < |Take(SortBy(e, ByTotalDesc), 3)| ==>
              Take(SortBy(e, ByTotalDesc), 3)[i].total >= Take(SortBy(e, ByTotalDesc), 3)[j].total
    ensures DistinctNames(e) ==> DistinctNames(Take(SortBy(e, ByTotalDesc), 3))
    ensures forall i, j :: 0 <= i < |Take(SortBy(e, ByTotalDesc), 3)| && 0 <= j < |e| &&
                           e[j] !in Take(SortBy(e, ByTotalDesc), 3) ==>
              Take(SortBy(e, ByTotalDesc), 3)[i].total >= e[j].total
  {
    RankOrdered(e);
    if DistinctNames(e) {
      RankDistinct(e);
    }
    RankMaximal(e);
  }

  lemma RankOrdered(e: seq<Entry>)
    ensures forall i, j :: 0 <= i < j < |SortBy(e, ByTotalDesc)| ==>
              SortBy(e, ByTotalDesc)[i].total >= SortBy(e, ByTotalDesc)[j].total
  {
    var sorted := SortBy(e, ByTotalDesc);
    SortBySorted(e, ByTotalDesc);
    forall i, j | 0 <= i < j < |sorted| ensures sorted[i].total >= sorted[j].total {
      assert ByTotalDesc(sorted[i]) <= ByTotalDesc(sorted[j]);
    }
  }

  lemma RankDistinct(e: seq<Entry>)
    requires DistinctNames(e)
    ensures DistinctNames(SortBy(e, ByTotalDesc))
  {
    var sorted := SortBy(e, ByTotalDesc);
    forall i, j | 0 <= i < j < |e| ensures e[i] != e[j] {
      assert e[i].name != e[j].name;
    }
    DistinctPermutation(e, sorted);
    forall i, j | 0 <= i < j < |sorted| ensures sorted[i].name != sorted[j].name {
      assert sorted[i] in multiset(e) && sorted[j] in multiset(e);
      var a :| 0 <= a < |e| && e[a] == sorted[i];
      var b :| 0 <= b < |e| && e[b] == sorted[j];
    }
  }

  lemma RankMaximal(e: seq<Entry>)
    ensures forall i, j :: 0 <= i < |Take(SortBy(e, ByTotalDesc), 3)| && 0 <= j < |e| &&
                           e[j] !in Take(SortBy(e, ByTotalDesc), 3) ==>
              Take(SortBy(e, ByTotalDesc), 3)[i].total >= e[j].total
  {
    var sorted := SortBy(e, ByTotalDesc);
    var top := Take(sorted, 3);
    SortBySorted(e, ByTotalDesc);
    forall i, j | 0 <= i < |top| && 0 <= j < |e| && e[j] !in top ensures top[i].total >= e[j].total {
      assert e[j] in multiset(sorted);
      var k :| 0 <= k < |sorted| && sorted[k] == e[j];
      assert top[i] == sorted[i];
      assert ByTotalDesc(sorted[i]) <= ByTotalDesc(sorted[k]);
    }
  }

  /** Largest first, no category twice, and no expense category left out
      has a larger total than one shown. */
  lemma TopExpensesOrder(transactions: seq<Transaction>)
    ensures forall i, j :: 0 <= i < j < |TopExpensesOf(transactions)| ==>
              TopExpensesOf(transactions)[i].total >= TopExpensesOf(transactions)[j].total
    ensures forall i, j :: 0 <= i < j < |TopExpensesOf(transactions)| ==>
              TopExpensesOf(transactions)[i].name != TopExpensesOf(transactions)[j].name
    ensures forall c, i :: c in Names(OfKind(transactions, Expense)) && 0 <= i < |TopExpensesOf(transactions)| &&
                           (forall k :: 0 <= k < |TopExpensesOf(transactions)| ==> TopExpensesOf(transactions)[k].name != c) ==>
              TopExpensesOf(transactions)[i].total >= CategoryTotal(OfKind(transactions, Expense), c)
  {
    var ex := OfKind(transactions, Expense);
    var e := Entries(ex);
    var top := TopExpensesOf(transactions);
    NamesDistinct(ex);
    RankEntries(e);
    forall c, i | c in Names(ex) && 0 <= i < |top| && (forall k :: 0 <= k < |top| ==> top[k].name != c)
      ensures top[i].total >= CategoryTotal(ex, c)
    {
      var n :| 0 <= n < |Names(ex)| && Names(ex)[n] == c;
      assert e[n].name == c;
    }
  }

  predicate DistinctNames(e: seq<Entry>)
  {
    forall i, j :: 0 <= i < j < |e| ==> e[i].name != e[j].name
  }

  /** The record has one entry per name. */
  lemma NamesDistinct(s: seq<Transaction>)
    ensures DistinctNames(Entries(s))
  {
    var e := Entries(s);
    NamesMembers(s);
    forall i, j | 0 <= i < j < |e| ensures e[i].name != e[j].name {
      assert e[i].name == Names(s)[i] && e[j].name == Names(s)[j];
    }
  }

  /** Categories with equal totals keep the order in which they were first
      seen among the expenses: the ones shown with a given total are the
      first ones with that total. */
  lemma TopExpensesTies(transactions: seq<Transaction>, total: int)
    ensures |Filter(TopExpensesOf(transactions), KeyIs(ByTotalDesc, -total))|
            <= |Filter(Entries(OfKind(transactions, Expense)), KeyIs(ByTotalDesc, -total))|
    ensures Filter(TopExpensesOf(transactions), KeyIs(ByTotalDesc, -total))
         == Filter(Entries(OfKind(transactions, Expense)), KeyIs(ByTotalDesc, -total))
              [..|Filter(TopExpensesOf(transactions), KeyIs(ByTotalDesc, -total))|]
  {
    RankEntriesTies(Entries(OfKind(transactions, Expense)), total);
  }

  /** Ties among any record's entries keep their order when ranked and cut. */
  lemma RankEntriesTies(e: seq<Entry>, total: int)
    ensures |Filter(Take(SortBy(e, ByTotalDesc), 3), KeyIs(ByTotalDesc, -total))|
            <= |Filter(e, KeyIs(ByTotalDesc, -total))|
    ensures Filter(Take(SortBy(e, ByTotalDesc), 3), KeyIs(ByTotalDesc, -total))
         == Filter(e, KeyIs(ByTotalDesc, -total))[..|Filter(Take(SortBy(e, ByTotalDesc), 3), KeyIs(ByTotalDesc, -total))|]
  {
    TakeIsStable(e, ByTotalDesc, 3, -total);
  }

  // ---- advice ----

  /** `totalIncome > 0 ? (totalIncome - totalExpense) / totalIncome : 0` */
  function SavingsRate(income: int, expense: int): real
  {
    if income > 0 then (income - expense) as real / income as real else 0.0
  }

  /** With a positive income, the rate compares with a threshold exactly as
      the saved amount compares with that share of the income. */
  lemma SavingsRateMeaning(income: int, expense: int, share: real)
    requires income > 0
    ensures SavingsRate(income, expense) < share <==> (income - expense) as real < share * income as real
    ensures SavingsRate(income, expense) > share <==> (income - expense) as real > share * income as real
    ensures expense >= 0 ==> SavingsRate(income, expense) <= 1.0
  {
    var r := SavingsRate(income, expense);
    assert r * income as real == (income - expense) as real;
  }

  /** One piece of advice. */
  datatype Tip = LowSavingsRate | GreatSaver | WatchCategory(name: string)

  /** `advice`: pushes a warning below a 10% savings rate or else praise
      above 40%, then a hint about the largest expense category if there is
      one. Each tip appears exactly when its condition holds and at most
      once; the two savings tips exclude each other, the category tip comes last and names the
      largest category, and without income the warning always shows. */
  method Advise(totalIncome: int, totalExpense: int, topExpenses: seq<Entry>) returns (list: seq<Tip>)
    ensures LowSavingsRate in list <==> SavingsRate(totalIncome, totalExpense) < 0.1
    ensures GreatSaver in list <==> SavingsRate(totalIncome, totalExpense) > 0.4
    ensures !(LowSavingsRate in list && GreatSaver in list)
    ensures forall n :: WatchCategory(n) in list <==> |topExpenses| > 0 && n == topExpenses[0].name
    ensures |topExpenses| > 0 ==> |list| > 0 && list[|list| - 1] == WatchCategory(topExpenses[0].name)
    ensures |list| <= 2
    ensures totalIncome <= 0 ==> LowSavingsRate in list
    ensures |list| == (if SavingsRate(totalIncome, totalExpense) < 0.1 || SavingsRate(totalIncome, totalExpense) > 0.4 then 1 else 0)
                    + (if |topExpenses| > 0 then 1 else 0)
  {
    list := [];
    var savingsRate := SavingsRate(totalIncome, totalExpense);
    if savingsRate < 0.1 {
      list := list + [LowSavingsRate];
    } else if savingsRate > 0.4 {
      list := list + [GreatSaver];
    }
    if |topExpenses| > 0 {
      list := list + [WatchCategory(topExpenses[0].name)];
    }
  }

  /** The first of the top expenses is an expense category whose total no
      other expense category exceeds. */
  lemma TopIsLargest(transactions: seq<Transaction>)
    requires |TopExpensesOf(transactions)| > 0
    ensures TopExpensesOf(transactions)[0].name in Names(OfKind(transactions, Expense))
    ensures forall c :: c in Names(OfKind(transactions, Expense)) ==>
              CategoryTotal(OfKind(transactions, Expense), c)
                <= CategoryTotal(OfKind(transactions, Expense), TopExpensesOf(transactions)[0].name)
  {
    var ex := OfKind(transactions, Expense);
    var top := TopExpensesOf(transactions);
    TopExpensesContents(transactions);
    TopExpensesOrder(transactions);
    forall c | c in Names(ex) ensures CategoryTotal(ex, c) <= top[0].total {
      if exists k :: 0 <= k < |top| && top[k].name == c {
        var k :| 0 <= k < |top| && top[k].name == c;
        assert top[k].total == CategoryTotal(ex, c);
      }
    }
  }

  /** `advice` as the page computes it: the savings tips from the store's
      income and expense totals, and the category tip naming the largest
      expense category. */
  method PageAdvice(transactions: seq<Transaction>) returns (list: seq<Tip>)
    ensures LowSavingsRate in list <==> SavingsRate(TotalIncome(transactions), TotalExpense(transactions)) < 0.1
    ensures GreatSaver in list <==> SavingsRate(TotalIncome(transactions), TotalExpense(transactions)) > 0.4
    ensures (exists n :: WatchCategory(n) in list) <==> |Names(OfKind(transactions, Expense))| > 0
    ensures forall n :: WatchCategory(n) in list ==>
              n in Names(OfKind(transactions, Expense)) &&
              forall c :: c in Names(OfKind(transactions, Expense)) ==>
                CategoryTotal(OfKind(transactions, Expense), c) <= CategoryTotal(OfKind(transactions, Expense), n)
    ensures |list| == (if SavingsRate(TotalIncome(transactions), TotalExpense(transactions)) < 0.1 ||
                          SavingsRate(TotalIncome(transactions), TotalExpense(transactions)) > 0.4 then 1 else 0)
                    + (if |Names(OfKind(transactions, Expense))| > 0 then 1 else 0)
  {
    var top := TopExpenses(transactions);
    TopExpensesContents(transactions);
    if |top| > 0 {
      TopIsLargest(transactions);
    }
    list := Advise(TotalIncome(transactions), TotalExpense(transactions), top);
    if |top| > 0 {
      assert WatchCategory(top[0].name) in list;
    }
  }
}
