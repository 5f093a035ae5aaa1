/** The transactions page: the searchable, type-filtered list newest first,
    the form's submit guard and its choice between editing and adding, the
    category options offered for the form's type, and the form reset. */
module TransactionsPage {
  import opened Seqs
  import opened FinanceTypes
  import opened Ledger
  import opened StableSort
  import opened Budget
  import FinanceStore

  // ---- search and filter ----

  /** `toLowerCase` on one character; only ASCII letters are folded. */
  function LowerChar(c: char): char
  {
    if 'A' <= c <= 'Z' then (c as int + 32) as char else c
  }

  function ToLower(s: string): (r: string)
    ensures |r| == |s|
    ensures forall i :: 0 <= i < |s| ==> r[i] == LowerChar(s[i])
  {
    seq(|s|, i requires 0 <= i < |s| => LowerChar(s[i]))
  }

  /** Lower-casing leaves no ASCII capital behind, turns each capital into
      its own small letter, keeps every other character, and changes nothing
      the second time. */
  lemma ToLowerMeaning(s: string)
    ensures forall i :: 0 <= i < |s| ==> !('A' <= ToLower(s)[i] <= 'Z')
    ensures forall i :: 0 <= i < |s| && 'A' <= s[i] <= 'Z' ==>
              'a' <= ToLower(s)[i] <= 'z' && ToLower(s)[i] as int - 'a' as int == s[i] as int - 'A' as int
    ensures forall i :: 0 <= i < |s| && !('A' <= s[i] <= 'Z') ==> ToLower(s)[i] == s[i]
    ensures ToLower(ToLower(s)) == ToLower(s)
  {
    assert forall i :: 0 <= i < |s| ==> ToLower(ToLower(s))[i] == ToLower(s)[i];
  }

  /** `sub` occurs in `s` starting at position `k`. */
  predicate OccursAt(s: string, sub: string, k: int)
  {
    0 <= k && k + |sub| <= |s| && s[k..k + |sub|] == sub
  }

  /** `s.includes(sub)`: `sub` occurs in `s` at some position. */
  predicate Includes(s: string, sub: string)
  {
    exists k :: 0 <= k <= |s| && OccursAt(s, sub, k)
  }

  /** Every string includes the empty string, and itself. */
  lemma IncludesTrivial(s: string)
    ensures Includes(s, "")
    ensures Includes(s, s)
  {
    assert OccursAt(s, "", 0);
    assert OccursAt(s, s, 0);
  }

  /** A string never includes a longer one. */
  lemma IncludesShorter(s: string, sub: string)
    requires Includes(s, sub)
    ensures |sub| <= |s|
  {
  }

  /** The type buttons: all, income only, or expense only. */
  datatype TypeFilter = AllTypes | OnlyType(kind: TxType)

  /** The predicate of `filteredTransactions`. */
  predicate Matches(t: Transaction, searchTerm: string, typeFilter: TypeFilter)
  {
    Includes(ToLower(t.description), ToLower(searchTerm)) &&
    (typeFilter == AllTypes || typeFilter == OnlyType(t.kind))
  }

  function MatchesBy(searchTerm: string, typeFilter: TypeFilter): Transaction -> bool
  {
    (t: Transaction) => Matches(t, searchTerm, typeFilter)
  }

  /** `filteredTransactions`: the matching transactions, newest first. */
  function FilteredTransactions(transactions: seq<Transaction>, searchTerm: string, typeFilter: TypeFilter): seq<Transaction>
  {
    NewestFirst(Filter(transactions, MatchesBy(searchTerm, typeFilter)))
  }

  /** The list holds each matching transaction as often as the store does
      and nothing else, newest first. */
  lemma FilteredTransactionsProperties(transactions: seq<Transaction>, searchTerm: string, typeFilter: TypeFilter)
    ensures forall t :: multiset(FilteredTransactions(transactions, searchTerm, typeFilter))[t]
                     == if Matches(t, searchTerm, typeFilter) then multiset(transactions)[t] else 0
    ensures multiset(FilteredTransactions(transactions, searchTerm, typeFilter)) <= multiset(transactions)
    ensures IsNewestFirst(FilteredTransactions(transactions, searchTerm, typeFilter))
  {
    var p := MatchesBy(searchTerm, typeFilter);
    var f := Filter(transactions, p);
    NewestFirstOrdered(f);
    FilterSubMultiset(transactions, p);
    forall t ensures multiset(FilteredTransactions(transactions, searchTerm, typeFilter))[t]
                  == if Matches(t, searchTerm, typeFilter) then multiset(transactions)[t] else 0
    {
      FilterCount(transactions, p, t);
    }
  }

  /** With no search term and all types, the list is every transaction,
      reordered newest first. */
  lemma UnfilteredIsPermutation(transactions: seq<Transaction>)
    ensures multiset(FilteredTransactions(transactions, "", AllTypes)) == multiset(transactions)
    ensures |FilteredTransactions(transactions, "", AllTypes)| == |transactions|
  {
    var p := MatchesBy("", AllTypes);
    forall i | 0 <= i < |transactions| ensures p(transactions[i]) {
      IncludesTrivial(ToLower(transactions[i].description));
    }
    FilterKeepsAll(transactions, p);
    NewestFirstOrdered(transactions);
  }

  /** Search ignores the case of ASCII letters. */
  lemma SearchIgnoresCase(t: Transaction, searchTerm: string, typeFilter: TypeFilter)
    ensures Matches(t, searchTerm, typeFilter) == Matches(t, ToLower(searchTerm), typeFilter)
  {
    var a, b := ToLower(searchTerm), ToLower(ToLower(searchTerm));
    assert a == b;
  }

  // ---- the form ----

  /** The form fields; an empty amount field is `None`. */
  datatype TxForm = TxForm(amount: Option<int>, description: string, category: string, kind: TxType, date: Date)

  /** The form as it starts and as closing the modal leaves it. */
  function DefaultForm(today: Date): TxForm
  {
    TxForm(None, "", "", Expense, today)
  }

  /** The page state the form handlers change. */
  datatype PageState = PageState(isModalOpen: bool, editingId: Option<string>, form: TxForm)

  /** `handleCloseModal`: close, stop editing, reset the form. */
  function CloseModal(today: Date): PageState
  {
    PageState(false, None, DefaultForm(today))
  }

  /** `handleEdit`: the form filled from a transaction, editing its id. */
  function StartEdit(t: Transaction): PageState
  {
    PageState(true, Some(t.id), TxForm(Some(t.amount), t.description, t.category, t.kind, t.date))
  }

  /** What `handleSubmit` asks of the store. */
  datatype SubmitCall = NoCall | EditCall(id: string, data: TxData) | AddCall(data: TxData)

  /** The guard: amount, description and category must all be filled in. */
  predicate Complete(form: TxForm)
  {
    form.amount.Some? && form.description != "" && form.category != ""
  }

  /** `handleSubmit`: nothing for an incomplete form; otherwise an edit when
      an id is being edited (the empty id is falsy) and an add otherwise. */
  function SubmitDecision(form: TxForm, editingId: Option<string>): SubmitCall
  {
    if !Complete(form) then NoCall
    else
      var data := TxData(form.amount.value, form.kind, form.category, form.date, form.description);
      if editingId.Some? && editingId.value != "" then EditCall(editingId.value, data) else AddCall(data)
  }

  /** The page state after `handleSubmit`: untouched when the guard fails,
      else closed and reset. */
  function AfterSubmit(page: PageState, today: Date): PageState
  {
    if Complete(page.form) then CloseModal(today) else page
  }

  /** The guard and the dispatch stated field by field. */
  lemma SubmitDecisionRules(form: TxForm, editingId: Option<string>, today: Date)
    ensures SubmitDecision(form, editingId) == NoCall <==>
              form.amount == None || form.description == "" || form.category == ""
    ensures SubmitDecision(form, editingId).EditCall? <==>
              Complete(form) && editingId.Some? && editingId.value != ""
    ensures SubmitDecision(form, editingId).EditCall? ==> SubmitDecision(form, editingId).id == editingId.value
    ensures SubmitDecision(form, editingId) != NoCall ==>
              var d := SubmitDecision(form, editingId).data;
              Some(d.amount) == form.amount && d.description == form.description &&
              d.category == form.category && d.kind == form.kind && d.date == form.date
    ensures !Complete(form) ==> AfterSubmit(PageState(true, editingId, form), today) == PageState(true, editingId, form)
    ensures Complete(form) ==> AfterSubmit(PageState(true, editingId, form), today) == CloseModal(today)
  {
  }

  /** Opening a transaction for editing and submitting it unchanged sends
      the transaction's own fields back under its own id, so in a store
      with unique ids the list does not change. */
  lemma EditRoundTrip(transactions: seq<Transaction>, k: nat)
    requires FinanceStore.UniqueTxIds(transactions) && k < |transactions|
    requires transactions[k].id != "" && transactions[k].description != "" && transactions[k].category != ""
    ensures SubmitDecision(StartEdit(transactions[k]).form, StartEdit(transactions[k]).editingId)
         == EditCall(transactions[k].id, DataOf(transactions[k]))
    ensures FinanceStore.EditById(transactions, transactions[k].id, DataOf(transactions[k])) == transactions
  {
    FinanceStore.EditAt(transactions, k, DataOf(transactions[k]));
    assert transactions == transactions[..k] + [transactions[k]] + transactions[k + 1..];
  }

  /** `handleSubmit` carried out on the store: at most one mutator runs, the
      one the decision names; `freshId` stands for `crypto.randomUUID()`. */
  method Submit(store: FinanceStore.Store, page: PageState, today: Date, freshId: string) returns (next: PageState)
    requires store.Valid()
    requires forall t :: t in store.transactions ==> t.id != freshId
    modifies store
    ensures store.Valid()
    ensures next == AfterSubmit(page, today)
    ensures store.categories == old(store.categories) && store.baseIncome == old(store.baseIncome)
    ensures match SubmitDecision(page.form, page.editingId)
            case NoCall => store.transactions == old(store.transactions)
            case EditCall(id, d) => store.transactions == FinanceStore.EditById(old(store.transactions), id, d)
            case AddCall(d) => store.transactions == [WithId(d, freshId)] + old(store.transactions)
  {
    match SubmitDecision(page.form, page.editingId) {
      case NoCall =>
      case EditCall(id, d) => store.EditTransaction(id, d);
      case AddCall(d) => store.AddTransaction(d, freshId);
    }
    next := AfterSubmit(page, today);
  }

  // ---- category options ----

  /** One entry of the category select. */
  datatype SelectOption = SelectOption(caption: string, value: string)

  function OptionOf(c: Category): SelectOption
  {
    SelectOption(c.name, c.name)
  }

  /** `categoryOptions`: the categories of the form's type, in order, each
      captioned (`label`) and valued by its name. */
  function CategoryOptions(categories: seq<Category>, kind: TxType): seq<SelectOption>
  {
    Map(CategoriesOfKind(categories, kind), OptionOf)
  }

  /** One option per category of the form's type, in order; a name is offered
      exactly when some category of that type has it. */
  lemma CategoryOptionsProperties(categories: seq<Category>, kind: TxType)
    ensures |CategoryOptions(categories, kind)| == |CategoriesOfKind(categories, kind)|
    ensures forall i :: 0 <= i < |CategoryOptions(categories, kind)| ==>
              CategoryOptions(categories, kind)[i].caption == CategoryOptions(categories, kind)[i].value
                == CategoriesOfKind(categories, kind)[i].name
    ensures forall n :: SelectOption(n, n) in CategoryOptions(categories, kind) <==>
              exists c :: c in categories && c.kind == kind && c.name == n
    ensures forall o :: o in CategoryOptions(categories, kind) ==> o.caption == o.value
  {
    forall n ensures SelectOption(n, n) in CategoryOptions(categories, kind) <==>
                     exists c :: c in categories && c.kind == kind && c.name == n {
      OptionOffered(categories, kind, n);
    }
  }

  lemma OptionOffered(categories: seq<Category>, kind: TxType, n: string)
    ensures SelectOption(n, n) in CategoryOptions(categories, kind) <==>
            exists c :: c in categories && c.kind == kind && c.name == n
  {
    var cs := CategoriesOfKind(categories, kind);
    var opts := CategoryOptions(categories, kind);
    FilterMembers(categories, IsCategoryKind(kind));
    if SelectOption(n, n) in opts {
      var i :| 0 <= i < |opts| && opts[i] == SelectOption(n, n);
      assert cs[i] in categories && cs[i].kind == kind;
    }
    if exists c :: c in categories && c.kind == kind && c.name == n {
      var c :| c in categories && c.kind == kind && c.name == n;
      var k :| 0 <= k < |categories| && categories[k] == c;
      assert IsCategoryKind(kind)(categories[k]);
      var j :| 0 <= j < |cs| && cs[j] == c;
      assert opts[j] == SelectOption(n, n);
    }
  }
}
