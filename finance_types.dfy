/** The records the finance store keeps: transactions, categories, the
    partial category update, and the calendar dates they carry. */
module FinanceTypes {

  datatype Option<T> = None | Some(value: T)

  /** A JavaScript number as far as this model needs it: NaN or a value. */
  datatype Num = NaN | Val(v: real)

  /** `Number(x) || 0` and `Number(x || 0)` on a number: NaN counts as 0. */
  function OrZero(n: Num): real
  {
    match n
    case NaN => 0.0
    case Val(v) => v
  }

  datatype TxType = Income | Expense

  datatype BudgetType = Fixed | Percentage

  /** A calendar date; `month` runs from 1 to 12. Time of day and time zones
      are not modelled. */
  datatype Date = Date(year: int, month: int, day: int)

  predicate IsLeapYear(y: int)
  {
    (y % 4 == 0 && y % 100 != 0) || y % 400 == 0
  }

  function DaysInMonth(year: int, month: int): (n: int)
    requires 1 <= month <= 12
    ensures 28 <= n <= 31
  {
    if month == 2 then (if IsLeapYear(year) then 29 else 28)
    else if month == 4 || month == 6 || month == 9 || month == 11 then 30
    else 31
  }

  predicate ValidDate(d: Date)
  {
    1 <= d.month <= 12 && 1 <= d.day <= DaysInMonth(d.year, d.month)
  }

  /** Chronological order on calendar dates. */
  predicate DateLe(a: Date, b: Date)
  {
    a.year < b.year ||
    (a.year == b.year && (a.month < b.month || (a.month == b.month && a.day <= b.day)))
  }

  /** A number that orders valid dates as `getTime()` does; used as a sort key. */
  function Ordinal(d: Date): int
  {
    d.year * 416 + d.month * 32 + d.day
  }

  lemma OrdinalOrdersDates(a: Date, b: Date)
    requires ValidDate(a) && ValidDate(b)
    ensures DateLe(a, b) <==> Ordinal(a) <= Ordinal(b)
    ensures Ordinal(a) == Ordinal(b) <==> a == b
  {
    if a.year < b.year {
      assert Ordinal(a) <= a.year * 416 + 415;
      assert Ordinal(b) >= b.year * 416 + 33;
    } else if a.year > b.year {
      assert Ordinal(b) <= b.year * 416 + 415;
      assert Ordinal(a) >= a.year * 416 + 33;
    }
  }

  predicate SameMonth(a: Date, b: Date)
  {
    a.year == b.year && a.month == b.month
  }

  /** `new Date(y, m - 1, d)`: the same day of the previous month; a day that
      the previous month does not have rolls over into the current month, as
      JavaScript's Date does (31 March gives 3 March, or 2 March in a leap year). */
  function OneMonthBefore(now: Date): (r: Date)
    requires ValidDate(now)
    ensures ValidDate(r)
    ensures DateLe(r, now) && r != now
    ensures now.day <= 28 ==> r.day == now.day && !SameMonth(r, now)
    ensures now.day <= 28 ==>
              r == Date(if now.month == 1 then now.year - 1 else now.year, if now.month == 1 then 12 else now.month - 1, now.day)
    ensures SameMonth(r, now) ||
            (r.year, r.month) == (if now.month == 1 then (now.year - 1, 12) else (now.year, now.month - 1))
    ensures !SameMonth(r, now) ==> r.day == now.day
    ensures SameMonth(r, now) <==>
              now.day > DaysInMonth(if now.month == 1 then now.year - 1 else now.year, if now.month == 1 then 12 else now.month - 1)
    ensures SameMonth(r, now) ==>
              1 <= r.day <= 3 &&
              r.day + DaysInMonth(if now.month == 1 then now.year - 1 else now.year, if now.month == 1 then 12 else now.month - 1) == now.day
  {
    var y := if now.month == 1 then now.year - 1 else now.year;
    var m := if now.month == 1 then 12 else now.month - 1;
    var dim := DaysInMonth(y, m);
    if now.day <= dim then Date(y, m, now.day)
    else Date(now.year, now.month, now.day - dim)
  }

  /** The fields of a transaction other than its id (`Omit<Transaction, 'id'>`). */
  datatype TxData = TxData(amount: int, kind: TxType, category: string, date: Date, description: string)

  datatype Transaction = Transaction(id: string, amount: int, kind: TxType, category: string,
                                     date: Date, description: string)

  /** `{ ...data, id }` */
  function WithId(d: TxData, id: string): (t: Transaction)
  {
    Transaction(id, d.amount, d.kind, d.category, d.date, d.description)
  }

  function DataOf(t: Transaction): (d: TxData)
    ensures WithId(d, t.id) == t
  {
    TxData(t.amount, t.kind, t.category, t.date, t.description)
  }

  /** The fields of a category other than its id (`Omit<Category, 'id'>`);
      `icon`, `budgetLimit` and `budgetType` are optional. */
  datatype CategoryData = CategoryData(name: string, kind: TxType, color: string, icon: Option<string>,
                                       budgetLimit: Option<real>, budgetType: Option<BudgetType>)

  datatype Category = Category(id: string, name: string, kind: TxType, color: string, icon: Option<string>,
                               budgetLimit: Option<real>, budgetType: Option<BudgetType>)

  function CategoryWithId(d: CategoryData, id: string): (c: Category)
  {
    Category(id, d.name, d.kind, d.color, d.icon, d.budgetLimit, d.budgetType)
  }

  /** `Partial<Omit<Category, 'id'>>`: a field is present when it is `Some`. */
  datatype CategoryPatch = CategoryPatch(name: Option<string>, kind: Option<TxType>, color: Option<string>,
                                         icon: Option<string>, budgetLimit: Option<real>,
                                         budgetType: Option<BudgetType>)

  function Pick<T>(p: Option<T>, old_: T): T
  {
    if p.Some? then p.value else old_
  }

  function PickOptional<T>(p: Option<T>, old_: Option<T>): Option<T>
  {
    if p.Some? then p else old_
  }

  /** `{ ...c, ...patch }`: the fields present in the patch win, the id stays. */
  function Merge(c: Category, p: CategoryPatch): (r: Category)
    ensures r.id == c.id
  {
    Category(c.id, Pick(p.name, c.name), Pick(p.kind, c.kind), Pick(p.color, c.color),
             PickOptional(p.icon, c.icon), PickOptional(p.budgetLimit, c.budgetLimit),
             PickOptional(p.budgetType, c.budgetType))
  }

  /** The patch that applies `p` and then `q` (the later one wins per field). */
  function Then(p: CategoryPatch, q: CategoryPatch): CategoryPatch
  {
    CategoryPatch(PickOptional(q.name, p.name), PickOptional(q.kind, p.kind), PickOptional(q.color, p.color),
                  PickOptional(q.icon, p.icon), PickOptional(q.budgetLimit, p.budgetLimit),
                  PickOptional(q.budgetType, p.budgetType))
  }

  const EmptyPatch := CategoryPatch(None, None, None, None, None, None)
}
