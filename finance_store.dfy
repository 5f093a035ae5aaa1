/** The finance store: the transactions, the categories and the base income,
    their load-time fallbacks, the mutators that replace them, and the
    totals derived from them. Persistence to browser storage is a ghost
    mirror that every mutator writes back. */
module FinanceStore {
  import opened Seqs
  import opened FinanceTypes
  import opened Ledger
  import opened Budget

  /** The seed categories used when no valid category list is stored. */
  const DefaultCategories: seq<Category> := [
    Category("1", "Investments", Income, "#10B981", Some("timelapse"), None, None),
    Category("2", "Freelance", Income, "#3B82F6", Some("briefcase"), None, None),
    Category("3", "Food", Expense, "#F59E0B", Some("utensils"), Some(0.0), None),
    Category("4", "Rent", Expense, "#EF4444", Some("home"), Some(0.0), None),
    Category("5", "Transport", Expense, "#8B5CF6", Some("car"), Some(0.0), None)
  ]

  // ---- load-time fallbacks ----

  /** What `JSON.parse` made of a stored, non-empty value. */
  datatype Parsed<T> = Unparsable | NotAnArray | AnArray(items: seq<T>)

  datatype LoadError = ParseError | NotAList

  datatype Loaded<T> = Loaded(value: T) | Crashed(error: LoadError)

  /** `saved ? JSON.parse(saved) : []` with no try/catch: an absent value gives
      the empty list, an unparsable one throws, and a value that is not an
      array is taken as the state and breaks every later array operation. */
  function LoadTransactions(saved: Option<Parsed<Transaction>>): (r: Loaded<seq<Transaction>>)
    ensures saved == None ==> r == Loaded([])
    ensures r.Loaded? <==> saved == None || saved.value.AnArray?
    ensures saved.Some? && saved.value.AnArray? ==> r == Loaded(saved.value.items)
  {
    match saved
    case None => Loaded([])
    case Some(Unparsable) => Crashed(ParseError)
    case Some(NotAnArray) => Crashed(NotAList)
    case Some(AnArray(items)) => Loaded(items)
  }

  /** A stored array is kept (even an empty one); anything else falls back to
      the seed categories. */
  function LoadCategories(saved: Option<Parsed<Category>>): seq<Category>
  {
    if saved.Some? && saved.value.AnArray? then saved.value.items else DefaultCategories
  }

  /** `saved ? Number(saved) : 0`, then NaN becomes 0. `Some(n)` is the number
      a non-empty stored string parses to. */
  function LoadBaseIncome(saved: Option<Num>): real
  {
    match saved
    case None => 0.0
    case Some(n) => OrZero(n)
  }

  /** No stored base income, or one that is not a number, starts the store
      at 0; any other number is taken as it is. */
  lemma LoadBaseIncomeFallback(v: real)
    ensures LoadBaseIncome(None) == 0.0
    ensures LoadBaseIncome(Some(NaN)) == 0.0
    ensures LoadBaseIncome(Some(Val(v))) == v
  {
  }

  predicate UniqueCategoryIds(cs: seq<Category>)
  {
    forall i, j :: 0 <= i < j < |cs| ==> cs[i].id != cs[j].id
  }

  /** Without a valid stored list the store starts from five seed categories
      with distinct ids: two of income type and three of expense type. */
  lemma LoadCategoriesFallback(saved: Option<Parsed<Category>>)
    requires saved.None? || !saved.value.AnArray?
    ensures LoadCategories(saved) == DefaultCategories
    ensures |LoadCategories(saved)| == 5 && UniqueCategoryIds(LoadCategories(saved))
    ensures |CategoriesOfKind(LoadCategories(saved), Income)| == 2
    ensures |CategoriesOfKind(LoadCategories(saved), Expense)| == 3
  {
    DefaultIds();
    DefaultKinds();
  }

  lemma DefaultIds()
    ensures UniqueCategoryIds(DefaultCategories)
  {
    var d := DefaultCategories;
    assert d[0].id == "1" && d[1].id == "2" && d[2].id == "3" && d[3].id == "4" && d[4].id == "5";
  }

  lemma DefaultKinds()
    ensures |CategoriesOfKind(DefaultCategories, Income)| == 2
    ensures |CategoriesOfKind(DefaultCategories, Expense)| == 3
  {
    var d := DefaultCategories;
    var inc, exp := IsCategoryKind(Income), IsCategoryKind(Expense);
    assert d[4..][1..] == [];
    assert |Filter(d[4..], inc)| == 0 && |Filter(d[4..], exp)| == 1;
    assert d[3..][1..] == d[4..];
    assert |Filter(d[3..], inc)| == 0 && |Filter(d[3..], exp)| == 2;
    assert d[2..][1..] == d[3..];
    assert |Filter(d[2..], inc)| == 0 && |Filter(d[2..], exp)| == 3;
    assert d[1..][1..] == d[2..];
    assert |Filter(d[1..], inc)| == 1 && |Filter(d[1..], exp)| == 3;
    assert |Filter(d, inc)| == 2 && |Filter(d, exp)| == 3;
  }

  /** Reading back what the store wrote gives the live state again; a NaN
      base income comes back as 0. */
  lemma ReloadRestores(ts: seq<Transaction>, cs: seq<Category>, b: Num)
    ensures LoadTransactions(Some(AnArray(ts))) == Loaded(ts)
    ensures LoadCategories(Some(AnArray(cs))) == cs
    ensures LoadBaseIncome(Some(b)) == OrZero(b)
    ensures b.Val? ==> LoadBaseIncome(Some(b)) == b.v
  {
  }

  // ---- the functional updaters that the mutators apply ----

  predicate UniqueTxIds(s: seq<Transaction>)
  {
    forall i, j :: 0 <= i < j < |s| ==> s[i].id != s[j].id
  }

  function TxId(t: Transaction): string
  {
    t.id
  }

  function TxIds(s: seq<Transaction>): seq<string>
  {
    Map(s, TxId)
  }

  /** `prev.map(t => t.id === id ? { ...data, id } : t)` */
  function EditById(s: seq<Transaction>, id: string, d: TxData): (r: seq<Transaction>)
    ensures |r| == |s|
    ensures forall i :: 0 <= i < |s| ==> r[i] == if s[i].id == id then WithId(d, id) else s[i]
  {
    if s == [] then []
    else [if s[0].id == id then WithId(d, id) else s[0]] + EditById(s[1..], id, d)
  }

  /** Editing keeps the length and the id of every position; matched entries
      take all the new fields, the others are untouched, and an unknown id
      changes nothing. */
  lemma EditProperties(s: seq<Transaction>, id: string, d: TxData)
    ensures TxIds(EditById(s, id, d)) == TxIds(s)
    ensures forall i :: 0 <= i < |s| && s[i].id == id ==> DataOf(EditById(s, id, d)[i]) == d
    ensures (forall i :: 0 <= i < |s| ==> s[i].id != id) ==> EditById(s, id, d) == s
    ensures UniqueTxIds(s) ==> UniqueTxIds(EditById(s, id, d))
  {
  }

  /** `prev.filter(t => t.id !== id)` */
  function RemoveTxById(s: seq<Transaction>, id: string): seq<Transaction>
  {
    Filter(s, (t: Transaction) => t.id != id)
  }

  /** Deleting removes every entry with the id, keeps every other entry as
      often as it occurred, and is idempotent; an unknown id changes nothing. */
  lemma RemoveTxProperties(s: seq<Transaction>, id: string)
    ensures forall t :: t in RemoveTxById(s, id) ==> t.id != id
    ensures forall t: Transaction :: t.id != id ==> multiset(RemoveTxById(s, id))[t] == multiset(s)[t]
    ensures RemoveTxById(RemoveTxById(s, id), id) == RemoveTxById(s, id)
    ensures (forall i :: 0 <= i < |s| ==> s[i].id != id) ==> RemoveTxById(s, id) == s
  {
    var p := (t: Transaction) => t.id != id;
    forall t: Transaction | t.id != id ensures multiset(RemoveTxById(s, id))[t] == multiset(s)[t] {
      FilterCount(s, p, t);
    }
    FilterMembers(s, p);
    FilterKeepsAll(RemoveTxById(s, id), p);
    if forall i :: 0 <= i < |s| ==> s[i].id != id {
      FilterKeepsAll(s, p);
    }
  }

  /** With distinct ids, deleting the entry at `k` is cutting it out of the
      sequence: the others keep their order. */
  lemma {:induction false} RemoveTxAt(s: seq<Transaction>, k: nat)
    requires UniqueTxIds(s) && k < |s|
    ensures RemoveTxById(s, s[k].id) == s[..k] + s[k + 1..]
  {
    var id := s[k].id;
    var p := (t: Transaction) => t.id != id;
    if k == 0 {
      FilterKeepsAll(s[1..], p);
    } else {
      RemoveTxAt(s[1..], k - 1);
      assert s[1..][k - 1] == s[k];
      assert s[1..][..k - 1] + s[1..][k..] == s[1..k] + s[k + 1..];
      assert s[..k] == [s[0]] + s[1..k];
    }
  }

  /** With distinct ids, deleting or editing the entry at `k` changes the
      totals by exactly that entry's contribution. */
  lemma TotalsAfterRemove(s: seq<Transaction>, k: nat)
    requires UniqueTxIds(s) && k < |s|
    ensures TotalIncome(RemoveTxById(s, s[k].id)) == TotalIncome(s) - (if s[k].kind == Income then s[k].amount else 0)
    ensures TotalExpense(RemoveTxById(s, s[k].id)) == TotalExpense(s) - (if s[k].kind == Expense then s[k].amount else 0)
  {
    RemoveTxAt(s, k);
    var a, x, b := s[..k], s[k], s[k + 1..];
    assert s == a + ([x] + b);
    TotalsOfPrepend(x, b);
    TotalsOfConcat(a, [x] + b);
    TotalsOfConcat(a, b);
  }

  lemma TotalsOfConcat(a: seq<Transaction>, b: seq<Transaction>)
    ensures TotalIncome(a + b) == TotalIncome(a) + TotalIncome(b)
    ensures TotalExpense(a + b) == TotalExpense(a) + TotalExpense(b)
  {
    FilterAppend(a, b, IsKind(Income));
    FilterAppend(a, b, IsKind(Expense));
    SumAppend(OfKind(a, Income), OfKind(b, Income));
    SumAppend(OfKind(a, Expense), OfKind(b, Expense));
  }

  lemma {:induction false} EditAt(s: seq<Transaction>, k: nat, d: TxData)
    requires UniqueTxIds(s) && k < |s|
    ensures EditById(s, s[k].id, d) == s[..k] + [WithId(d, s[k].id)] + s[k + 1..]
  {
    var r := EditById(s, s[k].id, d);
    var e := s[..k] + [WithId(d, s[k].id)] + s[k + 1..];
    assert |r| == |e|;
    forall i | 0 <= i < |r| ensures r[i] == e[i] {
      if i < k {
        assert s[i].id != s[k].id;
      } else if i > k {
        assert s[i].id != s[k].id;
      }
    }
  }

  lemma TotalsAfterEdit(s: seq<Transaction>, k: nat, d: TxData)
    requires UniqueTxIds(s) && k < |s|
    ensures TotalIncome(EditById(s, s[k].id, d))
         == TotalIncome(s) - (if s[k].kind == Income then s[k].amount else 0) + (if d.kind == Income then d.amount else 0)
    ensures TotalExpense(EditById(s, s[k].id, d))
         == TotalExpense(s) - (if s[k].kind == Expense then s[k].amount else 0) + (if d.kind == Expense then d.amount else 0)
  {
    EditAt(s, k, d);
    SplitAt(s, k);
    TotalsReplace(s[..k], s[k], WithId(d, s[k].id), s[k + 1..]);
  }

  /** Replacing one transaction moves each total by the difference. */
  lemma TotalsReplace(a: seq<Transaction>, x: Transaction, t: Transaction, b: seq<Transaction>)
    ensures TotalIncome(a + [t] + b)
         == TotalIncome(a + [x] + b) - (if x.kind == Income then x.amount else 0) + (if t.kind == Income then t.amount else 0)
    ensures TotalExpense(a + [t] + b)
         == TotalExpense(a + [x] + b) - (if x.kind == Expense then x.amount else 0) + (if t.kind == Expense then t.amount else 0)
  {
    assert a + [t] + b == a + ([t] + b);
    assert a + [x] + b == a + ([x] + b);
    TotalsOfPrepend(x, b);
    TotalsOfPrepend(t, b);
    TotalsOfConcat(a, [x] + b);
    TotalsOfConcat(a, [t] + b);
  }

  /** `prev.map(c => c.id === id ? { ...c, ...patch } : c)` */
  function UpdateCategoryById(cs: seq<Category>, id: string, p: CategoryPatch): (r: seq<Category>)
    ensures |r| == |cs|
    ensures forall i :: 0 <= i < |cs| ==> r[i] == if cs[i].id == id then Merge(cs[i], p) else cs[i]
  {
    if cs == [] then []
    else [if cs[0].id == id then Merge(cs[0], p) else cs[0]] + UpdateCategoryById(cs[1..], id, p)
  }

  /** A merge overwrites exactly the fields present in the patch. */
  lemma MergeFields(c: Category, p: CategoryPatch)
    ensures Merge(c, p).id == c.id
    ensures Merge(c, p).name == (if p.name.Some? then p.name.value else c.name)
    ensures Merge(c, p).kind == (if p.kind.Some? then p.kind.value else c.kind)
    ensures Merge(c, p).color == (if p.color.Some? then p.color.value else c.color)
    ensures Merge(c, p).icon == (if p.icon.Some? then p.icon else c.icon)
    ensures Merge(c, p).budgetLimit == (if p.budgetLimit.Some? then p.budgetLimit else c.budgetLimit)
    ensures Merge(c, p).budgetType == (if p.budgetType.Some? then p.budgetType else c.budgetType)
    ensures Merge(c, EmptyPatch) == c
  {
  }

  /** Two updates in a row are one update with the later fields winning. */
  lemma {:induction false} UpdateTwice(cs: seq<Category>, id: string, p: CategoryPatch, q: CategoryPatch)
    ensures UpdateCategoryById(UpdateCategoryById(cs, id, p), id, q) == UpdateCategoryById(cs, id, Then(p, q))
  {
    var a := UpdateCategoryById(UpdateCategoryById(cs, id, p), id, q);
    var b := UpdateCategoryById(cs, id, Then(p, q));
    forall i | 0 <= i < |cs| ensures a[i] == b[i] {
      if cs[i].id == id {
        assert Merge(Merge(cs[i], p), q) == Merge(cs[i], Then(p, q));
      }
    }
  }

  /** Updating keeps every id; non-matching entries and unknown ids are untouched. */
  lemma UpdateCategoryProperties(cs: seq<Category>, id: string, p: CategoryPatch)
    ensures forall i :: 0 <= i < |cs| ==> UpdateCategoryById(cs, id, p)[i].id == cs[i].id
    ensures (forall i :: 0 <= i < |cs| ==> cs[i].id != id) ==> UpdateCategoryById(cs, id, p) == cs
    ensures UniqueCategoryIds(cs) ==> UniqueCategoryIds(UpdateCategoryById(cs, id, p))
  {
  }

  /** `prev.filter(c => c.id !== id)` */
  function RemoveCategoryById(cs: seq<Category>, id: string): seq<Category>
  {
    Filter(cs, (c: Category) => c.id != id)
  }

  lemma RemoveCategoryProperties(cs: seq<Category>, id: string)
    ensures forall c :: c in RemoveCategoryById(cs, id) ==> c.id != id
    ensures forall c: Category :: c.id != id ==> multiset(RemoveCategoryById(cs, id))[c] == multiset(cs)[c]
    ensures RemoveCategoryById(RemoveCategoryById(cs, id), id) == RemoveCategoryById(cs, id)
    ensures UniqueCategoryIds(cs) ==> UniqueCategoryIds(RemoveCategoryById(cs, id))
  {
    var p := (c: Category) => c.id != id;
    forall c: Category | c.id != id ensures multiset(RemoveCategoryById(cs, id))[c] == multiset(cs)[c] {
      FilterCount(cs, p, c);
    }
    FilterMembers(cs, p);
    FilterKeepsAll(RemoveCategoryById(cs, id), p);
    if UniqueCategoryIds(cs) {
      FilterKeepsUnique(cs, p);
    }
  }

  lemma {:induction false} FilterKeepsUnique(cs: seq<Category>, p: Category -> bool)
    requires UniqueCategoryIds(cs)
    ensures UniqueCategoryIds(Filter(cs, p))
  {
    if cs != [] {
      FilterKeepsUnique(cs[1..], p);
      var rest := Filter(cs[1..], p);
      FilterMembers(cs[1..], p);
      forall j | 0 <= j < |rest| ensures rest[j].id != cs[0].id {
        var k :| 0 <= k < |cs[1..]| && cs[1..][k] == rest[j];
        assert cs[k + 1] == rest[j];
      }
    }
  }

  lemma {:induction false} FilterKeepsUniqueTx(s: seq<Transaction>, p: Transaction -> bool)
    requires UniqueTxIds(s)
    ensures UniqueTxIds(Filter(s, p))
  {
    if s != [] {
      FilterKeepsUniqueTx(s[1..], p);
      var rest := Filter(s[1..], p);
      FilterMembers(s[1..], p);
      forall j | 0 <= j < |rest| ensures rest[j].id != s[0].id {
        var k :| 0 <= k < |s[1..]| && s[1..][k] == rest[j];
        assert s[k + 1] == rest[j];
      }
    }
  }

  // ---- the store ----

  class Store {
    var transactions: seq<Transaction>
    var categories: seq<Category>
    var baseIncome: Num

    /** What the persistence effects last wrote to storage. */
    ghost var savedTransactions: seq<Transaction>
    ghost var savedCategories: seq<Category>
    ghost var savedBaseIncome: Num

    /** Storage mirrors the live state. */
    ghost predicate Valid()
      reads this
    {
      savedTransactions == transactions &&
      savedCategories == categories &&
      savedBaseIncome == baseIncome
    }

    /** The three load initialisers, then the effects' first write-back. */
    constructor Load(savedTx: Option<Parsed<Transaction>>, savedCats: Option<Parsed<Category>>, savedIncome: Option<Num>)
      requires LoadTransactions(savedTx).Loaded?
      ensures Valid()
      ensures transactions == LoadTransactions(savedTx).value
      ensures categories == LoadCategories(savedCats)
      ensures baseIncome == Val(LoadBaseIncome(savedIncome))
    {
      transactions := LoadTransactions(savedTx).value;
      categories := LoadCategories(savedCats);
      baseIncome := Val(LoadBaseIncome(savedIncome));
      savedTransactions := LoadTransactions(savedTx).value;
      savedCategories := LoadCategories(savedCats);
      savedBaseIncome := Val(LoadBaseIncome(savedIncome));
    }

    /** `getIncome()` */
    function GetIncome(): int
      reads this
    {
      TotalIncome(transactions)
    }

    /** `getExpense()` */
    function GetExpense(): int
      reads this
    {
      TotalExpense(transactions)
    }

    /** `getBalance()`: income minus expense, which is the signed running
        total of all transactions. */
    function GetBalance(): (b: int)
      reads this
      ensures b == SignedSum(transactions)
      ensures b == GetIncome() - GetExpense()
    {
      SignedSumIsBalance(transactions);
      GetIncome() - GetExpense()
    }

    /** `addTransaction`: the new entry, with the fresh id, goes in front. */
    method AddTransaction(data: TxData, id: string)
      requires Valid()
      requires forall t :: t in transactions ==> t.id != id
      modifies this
      ensures Valid()
      ensures transactions == [WithId(data, id)] + old(transactions)
      ensures categories == old(categories) && baseIncome == old(baseIncome)
      ensures GetIncome() == old(GetIncome()) + (if data.kind == Income then data.amount else 0)
      ensures GetExpense() == old(GetExpense()) + (if data.kind == Expense then data.amount else 0)
      ensures old(UniqueTxIds(transactions)) ==> UniqueTxIds(transactions)
    {
      TotalsOfPrepend(WithId(data, id), transactions);
      transactions := [WithId(data, id)] + transactions;
      savedTransactions := transactions;
    }

    /** `editTransaction` */
    method EditTransaction(id: string, data: TxData)
      requires Valid()
      modifies this
      ensures Valid()
      ensures transactions == EditById(old(transactions), id, data)
      ensures TxIds(transactions) == TxIds(old(transactions))
      ensures categories == old(categories) && baseIncome == old(baseIncome)
      ensures old(UniqueTxIds(transactions)) ==> UniqueTxIds(transactions)
    {
      EditProperties(transactions, id, data);
      transactions := EditById(transactions, id, data);
      savedTransactions := transactions;
    }

    /** `deleteTransaction` */
    method DeleteTransaction(id: string)
      requires Valid()
      modifies this
      ensures Valid()
      ensures transactions == RemoveTxById(old(transactions), id)
      ensures categories == old(categories) && baseIncome == old(baseIncome)
      ensures old(UniqueTxIds(transactions)) ==> UniqueTxIds(transactions)
    {
      if UniqueTxIds(transactions) {
        FilterKeepsUniqueTx(transactions, (t: Transaction) => t.id != id);
      }
      transactions := RemoveTxById(transactions, id);
      savedTransactions := transactions;
    }

    /** `addCategory`: the new category, with the fresh id, goes at the end. */
    method AddCategory(data: CategoryData, id: string)
      requires Valid()
      requires forall c :: c in categories ==> c.id != id
      modifies this
      ensures Valid()
      ensures categories == old(categories) + [CategoryWithId(data, id)]
      ensures transactions == old(transactions) && baseIncome == old(baseIncome)
      ensures old(UniqueCategoryIds(categories)) ==> UniqueCategoryIds(categories)
    {
      categories := categories + [CategoryWithId(data, id)];
      savedCategories := categories;
    }

    /** `updateCategory` */
    method UpdateCategory(id: string, patch: CategoryPatch)
      requires Valid()
      modifies this
      ensures Valid()
      ensures categories == UpdateCategoryById(old(categories), id, patch)
      ensures transactions == old(transactions) && baseIncome == old(baseIncome)
      ensures old(UniqueCategoryIds(categories)) ==> UniqueCategoryIds(categories)
    {
      UpdateCategoryProperties(categories, id, patch);
      categories := UpdateCategoryById(categories, id, patch);
      savedCategories := categories;
    }

    /** `deleteCategory`: transactions that name the category keep the name. */
    method DeleteCategory(id: string)
      requires Valid()
      modifies this
      ensures Valid()
      ensures categories == RemoveCategoryById(old(categories), id)
      ensures transactions == old(transactions) && baseIncome == old(baseIncome)
      ensures old(UniqueCategoryIds(categories)) ==> UniqueCategoryIds(categories)
    {
      RemoveCategoryProperties(categories, id);
      categories := RemoveCategoryById(categories, id);
      savedCategories := categories;
    }

    /** `setBaseIncome`: any number is accepted, negative or NaN included. */
    method SetBaseIncome(amount: Num)
      requires Valid()
      modifies this
      ensures Valid()
      ensures baseIncome == amount
      ensures transactions == old(transactions) && categories == old(categories)
    {
      baseIncome := amount;
      savedBaseIncome := amount;
    }
  }
}
