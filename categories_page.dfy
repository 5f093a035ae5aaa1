/** The categories page: the add-category form with its guard, budget-limit
    normalisation, reset and budget-type switch; the split of the categories
    into income and expense lists; the all-time spending per category; and
    the preview of a percentage budget against the base income. */
module CategoriesPage {
  import opened Seqs
  import opened FinanceTypes
  import opened Ledger
  import opened Aggregation
  import opened Budget
  import FinanceStore

  // ---- the form ----

  /** The form fields; an empty budget-limit field is `None`. */
  datatype CategoryForm = CategoryForm(name: string, kind: TxType, color: string,
                                       budgetLimit: Option<real>, budgetType: BudgetType)

  const DefaultCategoryForm := CategoryForm("", Expense, "#3b82f6", None, Fixed)

  datatype CategoryPageState = CategoryPageState(isModalOpen: bool, form: CategoryForm)

  /** What `handleSubmit` passes to `addCategory`: nothing without a name;
      an empty limit becomes 0 and no icon is set. */
  function SubmitData(form: CategoryForm): Option<CategoryData>
  {
    if form.name == "" then None
    else
      var limit := match form.budgetLimit case None => 0.0 case Some(v) => v;
      Some(CategoryData(form.name, form.kind, form.color, None, Some(limit), Some(form.budgetType)))
  }

  /** The page after `handleSubmit`: unchanged without a name, otherwise the
      modal closes and the form is reset. */
  function AfterCategorySubmit(page: CategoryPageState): CategoryPageState
  {
    if page.form.name == "" then page else CategoryPageState(false, DefaultCategoryForm)
  }

  /** The guard, the field-by-field copy, the limit default and the reset. */
  lemma SubmitDataRules(form: CategoryForm, isModalOpen: bool)
    ensures SubmitData(form).None? <==> form.name == ""
    ensures SubmitData(form).Some? ==>
              var d := SubmitData(form).value;
              d.name == form.name && d.kind == form.kind && d.color == form.color &&
              d.icon == None && d.budgetType == Some(form.budgetType) &&
              d.budgetLimit == Some(if form.budgetLimit.Some? then form.budgetLimit.value else 0.0)
    ensures form.name == "" ==> AfterCategorySubmit(CategoryPageState(isModalOpen, form)) == CategoryPageState(isModalOpen, form)
    ensures form.name != "" ==> AfterCategorySubmit(CategoryPageState(isModalOpen, form)) == CategoryPageState(false, DefaultCategoryForm)
  {
  }

  /** A category added from the form is allocated exactly what the form
      says: its limit (0 if left empty) for a fixed budget, and that share of
      a positive income for a percentage budget. */
  lemma SubmittedAllocation(form: CategoryForm, id: string, income: real)
    requires form.name != ""
    ensures var c := CategoryWithId(SubmitData(form).value, id);
            var limit := if form.budgetLimit.Some? then form.budgetLimit.value else 0.0;
            Allocation(c, income) == if form.budgetType == Percentage && income > 0.0 then income * limit / 100.0 else limit
  {
  }

  /** `handleSubmit` carried out on the store; `freshId` stands for
      `crypto.randomUUID()`. */
  method SubmitCategory(store: FinanceStore.Store, page: CategoryPageState, freshId: string) returns (next: CategoryPageState)
    requires store.Valid()
    requires forall c :: c in store.categories ==> c.id != freshId
    modifies store
    ensures store.Valid()
    ensures next == AfterCategorySubmit(page)
    ensures store.transactions == old(store.transactions) && store.baseIncome == old(store.baseIncome)
    ensures match SubmitData(page.form)
            case None => store.categories == old(store.categories)
            case Some(d) => store.categories == old(store.categories) + [CategoryWithId(d, freshId)]
  {
    match SubmitData(page.form) {
      case None =>
      case Some(d) => store.AddCategory(d, freshId);
    }
    next := AfterCategorySubmit(page);
  }

  /** The budget-type buttons: switching type clears the entered limit. */
  function SelectBudgetType(form: CategoryForm, budgetType: BudgetType): CategoryForm
  {
    form.(budgetType := budgetType, budgetLimit := None)
  }

  /** After switching, the limit is empty and only the type changed, so a
      submit right after stores a zero limit. */
  lemma SelectBudgetTypeEffect(form: CategoryForm, budgetType: BudgetType)
    ensures SelectBudgetType(form, budgetType).budgetLimit == None
    ensures SelectBudgetType(form, budgetType).budgetType == budgetType
    ensures SelectBudgetType(form, budgetType).(budgetType := form.budgetType, budgetLimit := form.budgetLimit) == form
    ensures form.name != "" ==> SubmitData(SelectBudgetType(form, budgetType)).value.budgetLimit == Some(0.0)
  {
  }

  // ---- preview ----

  /** The preview under the limit field: shown for a percentage budget with
      a limit entered and a positive base income. */
  function Preview(form: CategoryForm, baseIncome: Num): Option<real>
  {
    if form.budgetType == Percentage && form.budgetLimit.Some? && baseIncome.Val? && baseIncome.v > 0.0
    then Some(form.budgetLimit.value / 100.0 * baseIncome.v)
    else None
  }

  /** The hint to set a base income: shown for a percentage budget when the
      base income is exactly 0. */
  predicate ShowIncomeHint(form: CategoryForm, baseIncome: Num)
  {
    form.budgetType == Percentage && baseIncome == Val(0.0)
  }

  /** The preview is what the dashboard and the planning page will allocate
      to the category once it is added; preview and hint never show
      together. */
  lemma PreviewIsAllocation(form: CategoryForm, baseIncome: Num, id: string)
    requires form.name != ""
    ensures Preview(form, baseIncome).Some? ==>
              Preview(form, baseIncome).value == Allocation(CategoryWithId(SubmitData(form).value, id), OrZero(baseIncome))
    ensures !(Preview(form, baseIncome).Some? && ShowIncomeHint(form, baseIncome))
    ensures Preview(form, baseIncome).Some? <==>
              form.budgetType == Percentage && form.budgetLimit.Some? && OrZero(baseIncome) > 0.0
  {
  }

  // ---- the two lists and the spending ----

  /** `incomeCategories` and `expenseCategories` together hold every
      category once, each list only its own type. */
  lemma CategoryListsPartition(categories: seq<Category>)
    ensures |CategoriesOfKind(categories, Income)| + |CategoriesOfKind(categories, Expense)| == |categories|
    ensures multiset(CategoriesOfKind(categories, Income)) + multiset(CategoriesOfKind(categories, Expense))
         == multiset(categories)
    ensures forall i :: 0 <= i < |CategoriesOfKind(categories, Income)| ==> CategoriesOfKind(categories, Income)[i].kind == Income
    ensures forall i :: 0 <= i < |CategoriesOfKind(categories, Expense)| ==> CategoriesOfKind(categories, Expense)[i].kind == Expense
  {
    FilterPartition(categories, IsCategoryKind(Income), IsCategoryKind(Expense));
    FilterMembers(categories, IsCategoryKind(Income));
    FilterMembers(categories, IsCategoryKind(Expense));
  }

  /** `categorySpending`: all expenses, of any date, folded into a record by
      category name. The names are those some expense carries, each with
      the sum of its expenses. */
  method CategorySpending(transactions: seq<Transaction>) returns (names: seq<string>, spending: map<string, int>)
    ensures forall c :: c in spending <==>
              exists i :: 0 <= i < |transactions| && transactions[i].kind == Expense && transactions[i].category == c
    ensures forall c :: c in spending ==> spending[c] == CategoryTotal(OfKind(transactions, Expense), c)
    ensures names == Names(OfKind(transactions, Expense))
    ensures forall c :: c in names <==> c in spending
  {
    var expenses := OfKind(transactions, Expense);
    names, spending := Tally(expenses);
    forall c ensures c in spending <==>
              exists i :: 0 <= i < |transactions| && transactions[i].kind == Expense && transactions[i].category == c
    {
      ExpenseCategory(transactions, c);
    }
  }

  lemma ExpenseCategory(transactions: seq<Transaction>, c: string)
    ensures c in Names(OfKind(transactions, Expense)) <==>
            exists i :: 0 <= i < |transactions| && transactions[i].kind == Expense && transactions[i].category == c
  {
    var ex := OfKind(transactions, Expense);
    NamesMembers(ex);
    FilterMembers(transactions, IsKind(Expense));
    if c in Names(ex) {
      var j :| 0 <= j < |ex| && ex[j].category == c;
      assert IsKind(Expense)(ex[j]);
      var i :| 0 <= i < |transactions| && transactions[i] == ex[j];
    }
    if exists i :: 0 <= i < |transactions| && transactions[i].kind == Expense && transactions[i].category == c {
      var i :| 0 <= i < |transactions| && transactions[i].kind == Expense && transactions[i].category == c;
      assert IsKind(Expense)(transactions[i]);
      var j :| 0 <= j < |ex| && ex[j] == transactions[i];
      assert ex[j].category == c;
    }
  }

  /** The per-category spending adds up to the total expense, and with
      non-negative amounts no category's all-time spending is below its
      spending in any one month. */
  lemma CategorySpendingTotals(transactions: seq<Transaction>, name: string, now: Date)
    ensures TotalsOver(Names(OfKind(transactions, Expense)), OfKind(transactions, Expense)) == TotalExpense(transactions)
    ensures AllNonNegative(transactions) ==>
              MonthSpent(transactions, name, now) <= CategoryTotal(OfKind(transactions, Expense), name)
  {
    TallyAccountsForAll(OfKind(transactions, Expense));
    if AllNonNegative(transactions) {
      var both := (t: Transaction) => t.kind == Expense && t.category == name;
      FilterFilter(transactions, IsKind(Expense), InCategory(name), both);
      SumFilterMono(transactions, SpentIn(name, now), both);
    }
  }
}
