/** Entities shared by the store, the derived views and the add-transaction flow. */
module Types {

  datatype Option<+T> = None | Some(value: T)

  /** The two kinds of money movement; a closed enumeration. */
  datatype TxType = Income | Expense

  /** The list's period filter. */
  datatype Period = PeriodAll | PeriodDay | PeriodWeek | PeriodMonth

  /** The list's type tab: everything, or one transaction type. */
  datatype Tab = TabAll | TabIncome | TabExpense

  /** A calendar date in local time (month counts from 0, as the platform's date type does)
      together with the instant it denotes, which orders dates. */
  datatype DateStamp = DateStamp(year: int, month: int, day: int, ts: int)

  /** A transaction row. `category` is a plain name, not a reference to a category's id;
      `createdAt` is None when the row carries no timestamp or one that does not parse. */
  datatype Transaction = Transaction(
    id: string,
    userId: string,
    amount: real,
    kind: TxType,
    category: string,
    createdAt: Option<DateStamp>)

  /** A category row; `icon` is optional. */
  datatype Category = Category(
    id: string,
    userId: string,
    name: string,
    icon: Option<string>,
    kind: TxType)

  /** The wire name of a transaction type. */
  function TypeName(t: TxType): (s: string)
    ensures s == "income" || s == "expense"
  {
    match t
    case Income => "income"
    case Expense => "expense"
  }

  /** Reads a wire name back; anything but the two names is rejected. */
  function ParseType(s: string): (r: Option<TxType>)
    ensures r.Some? <==> s == "income" || s == "expense"
  {
    if s == "income" then Some(Income)
    else if s == "expense" then Some(Expense)
    else None
  }

  lemma TypeNameRoundTrip(t: TxType)
    ensures ParseType(TypeName(t)) == Some(t)
  {
  }

  /** The wire name of a tab; `all` is never the name of a transaction type. */
  function TabName(tab: Tab): (s: string)
    ensures tab == TabAll <==> s == "all"
  {
    match tab
    case TabAll => "all"
    case TabIncome => "income"
    case TabExpense => "expense"
  }

  /** `activeTab === 'all' || tr.type === activeTab`, compared on the wire names. The
      comparison admits exactly the matching type, or everything under `all`. */
  predicate TabAdmits(tab: Tab, t: TxType)
    ensures TabAdmits(tab, t) <==>
      (tab == TabAll || (tab == TabIncome && t == Income) || (tab == TabExpense && t == Expense))
  {
    TabName(tab) == "all" || TypeName(t) == TabName(tab)
  }
}
