/** The home screen's derived views over the store (the period and tab filter, the
    income and expense totals, the display conversion), the exchange-rate fallback rule,
    and the handlers that delete a transaction and sign out. */
module Page {
  import opened Types
  import opened Store
  import Backend
  import Translations
  import BalanceCard
  import Arith
  import Chart

  const MsPerDay: int := 86400000

  /** The rate applied when the exchange-rate call fails in any way. */
  const FallbackRate: Rate := 92.0

  /** The instant the week filter compares against: now, seven days earlier. */
  function WeekCutoff(now: DateStamp): int
  {
    now.ts - 7 * MsPerDay
  }

  /** The period test for one timestamp. A transaction without a usable timestamp is an
      invalid date, which no comparison accepts, so it passes only `all`. */
  predicate PeriodMatch(created: Option<DateStamp>, period: Period, now: DateStamp)
    ensures period == PeriodAll ==> PeriodMatch(created, period, now)
    ensures PeriodMatch(created, period, now) && period != PeriodAll ==> created.Some?
    ensures PeriodMatch(created, period, now) && period == PeriodDay ==> created.value.month == now.month
  {
    match period
    case PeriodAll => true
    case PeriodDay =>
      created.Some? && created.value.year == now.year && created.value.month == now.month
      && created.value.day == now.day
    case PeriodWeek => created.Some? && created.value.ts >= WeekCutoff(now)
    case PeriodMonth => created.Some? && created.value.month == now.month
  }

  predicate Keeps(t: Transaction, period: Period, tab: Tab, now: DateStamp)
  {
    PeriodMatch(t.createdAt, period, now) && TabAdmits(tab, t.kind)
  }

  /** `filteredData`: the transactions that pass both the period and the tab. */
  function FilteredData(txs: seq<Transaction>, period: Period, tab: Tab, now: DateStamp): (r: seq<Transaction>)
    ensures |r| <= |txs|
    ensures forall t :: t in r <==> t in txs && Keeps(t, period, tab, now)
  {
    if txs == [] then []
    else
      var head := if Keeps(txs[0], period, tab, now) then [txs[0]] else [];
      head + FilteredData(txs[1..], period, tab, now)
  }

  /** The filter keeps the survivors in their original order. */
  lemma {:induction false} FilteredKeepsOrder(txs: seq<Transaction>, period: Period, tab: Tab, now: DateStamp)
    ensures IsSubsequence(FilteredData(txs, period, tab, now), txs)
    decreases |txs|
  {
    if txs != [] {
      FilteredKeepsOrder(txs[1..], period, tab, now);
      var rest := FilteredData(txs[1..], period, tab, now);
      if Keeps(txs[0], period, tab, now) {
        assert ([txs[0]] + rest)[1..] == rest;
      } else {
        assert FilteredData(txs, period, tab, now) == rest;
        SubsequenceOfTail(rest, txs);
      }
    }
  }

  /** With period `all` and tab `all` the list comes back unchanged. */
  lemma {:induction false} FilterAllIsIdentity(txs: seq<Transaction>, now: DateStamp)
    ensures FilteredData(txs, PeriodAll, TabAll, now) == txs
    decreases |txs|
  {
    if txs != [] {
      FilterAllIsIdentity(txs[1..], now);
      assert [txs[0]] + txs[1..] == txs;
    }
  }

  /** Under a type tab every surviving transaction has that type. */
  lemma FilterByTab(txs: seq<Transaction>, period: Period, now: DateStamp)
    ensures forall t :: t in FilteredData(txs, period, TabIncome, now) ==> t.kind == Income
    ensures forall t :: t in FilteredData(txs, period, TabExpense, now) ==> t.kind == Expense
  {
  }

  /** The month filter looks at the month of the year only: a transaction from the same
      month of another year passes it. */
  lemma MonthIgnoresYear(t: Transaction, now: DateStamp)
    requires t.createdAt.Some? && t.createdAt.value.month == now.month
    ensures Keeps(t, PeriodMonth, TabAll, now)
    ensures t.createdAt.value.year != now.year ==> !Keeps(t, PeriodDay, TabAll, now)
  {
  }

  /** A transaction without a usable timestamp passes the period `all` and no other. */
  lemma MissingDatePassesOnlyAll(t: Transaction, period: Period, now: DateStamp)
    requires t.createdAt.None?
    ensures PeriodMatch(t.createdAt, period, now) <==> period == PeriodAll
  {
  }

  /** A transaction stamped with now itself passes every period. */
  lemma NowPassesEveryPeriod(t: Transaction, period: Period, now: DateStamp)
    requires t.createdAt == Some(now)
    ensures PeriodMatch(t.createdAt, period, now)
  {
  }

  /** The transactions of one type. */
  function OfType(txs: seq<Transaction>, kind: TxType): (r: seq<Transaction>)
    ensures forall t :: t in r <==> t in txs && t.kind == kind
    ensures (forall t :: t in txs ==> t.kind != kind) ==> r == []
  {
    if txs == [] then []
    else (if txs[0].kind == kind then [txs[0]] else []) + OfType(txs[1..], kind)
  }

  function SumAmounts(txs: seq<Transaction>): real
  {
    if txs == [] then 0.0 else txs[0].amount + SumAmounts(txs[1..])
  }

  /** Every transaction is counted in exactly one of the two totals. */
  lemma {:induction false} TotalsPartition(txs: seq<Transaction>)
    ensures SumAmounts(OfType(txs, Income)) + SumAmounts(OfType(txs, Expense)) == SumAmounts(txs)
    decreases |txs|
  {
    if txs != [] {
      TotalsPartition(txs[1..]);
      var h := txs[0];
      var inc := OfType(txs[1..], Income);
      var exp := OfType(txs[1..], Expense);
      if h.kind == Income {
        assert OfType(txs, Income) == [h] + inc;
        assert OfType(txs, Expense) == exp;
        assert ([h] + inc)[1..] == inc;
      } else {
        assert OfType(txs, Expense) == [h] + exp;
        assert OfType(txs, Income) == inc;
        assert ([h] + exp)[1..] == exp;
      }
    }
  }

  /** `inc`: the income sum over the list the page already filtered by period and tab.
      It and the expense total split the sum of all the list's amounts between them. */
  function IncomeTotal(filtered: seq<Transaction>): (r: real)
    ensures r + ExpenseTotal(filtered) == SumAmounts(filtered)
    ensures (forall t :: t in filtered ==> t.kind == Expense) ==> r == 0.0
  {
    TotalsPartition(filtered);
    SumAmounts(OfType(filtered, Income))
  }

  /** `exp`: the expense sum over the same list. */
  function ExpenseTotal(filtered: seq<Transaction>): (r: real)
    ensures (forall t :: t in filtered ==> t.kind == Income) ==> r == 0.0
  {
    SumAmounts(OfType(filtered, Expense))
  }

  /** The amount the balance card receives. */
  function Balance(filtered: seq<Transaction>): (b: real)
    ensures b + ExpenseTotal(filtered) == IncomeTotal(filtered)
  {
    IncomeTotal(filtered) - ExpenseTotal(filtered)
  }

  /** The totals see the tab: under tab `income` the expense total is zero and the
      balance is the income total, and under tab `expense` the other way round. */
  lemma TabZeroesOtherTotal(txs: seq<Transaction>, period: Period, now: DateStamp)
    ensures ExpenseTotal(FilteredData(txs, period, TabIncome, now)) == 0.0
    ensures IncomeTotal(FilteredData(txs, period, TabExpense, now)) == 0.0
    ensures Balance(FilteredData(txs, period, TabIncome, now)) == IncomeTotal(FilteredData(txs, period, TabIncome, now))
  {
  }

  /** The chart receives the filtered list too: under tab `income` the expense chart is
      empty, and under tab `expense` the income chart is. */
  lemma ChartSeesTab(txs: seq<Transaction>, period: Period, now: DateStamp)
    ensures Chart.SortDesc(Chart.Grouped(FilteredData(txs, period, TabIncome, now), Expense)) == []
    ensures Chart.SortDesc(Chart.Grouped(FilteredData(txs, period, TabExpense, now), Income)) == []
  {
    Chart.GroupedEmpty(FilteredData(txs, period, TabIncome, now), Expense);
    Chart.GroupedEmpty(FilteredData(txs, period, TabExpense, now), Income);
  }

  /** The income card shows the same sum under tab `all` as under tab `income`. */
  lemma {:induction false} IncomeSameUnderAllAndIncome(txs: seq<Transaction>, period: Period, now: DateStamp)
    ensures OfType(FilteredData(txs, period, TabAll, now), Income) == OfType(FilteredData(txs, period, TabIncome, now), Income)
    decreases |txs|
  {
    if txs != [] {
      IncomeSameUnderAllAndIncome(txs[1..], period, now);
      var h := txs[0];
      var all := FilteredData(txs, period, TabAll, now);
      var inc := FilteredData(txs, period, TabIncome, now);
      var allRest := FilteredData(txs[1..], period, TabAll, now);
      var incRest := FilteredData(txs[1..], period, TabIncome, now);
      if PeriodMatch(h.createdAt, period, now) {
        assert all == [h] + allRest;
        assert ([h] + allRest)[1..] == allRest;
        if h.kind == Income {
          assert inc == [h] + incRest;
          assert ([h] + incRest)[1..] == incRest;
        } else {
          assert inc == incRest;
        }
      } else {
        assert all == allRest && inc == incRest;
      }
    }
  }

  /** The text and sign `formatVal` produces, before locale formatting. */
  datatype Formatted = Formatted(converted: real, sign: string, minFractionDigits: nat, maxFractionDigits: nat)

  /** `formatVal`: roubles are shown as they are; dollars are the rouble amount divided
      by the rate. */
  function FormatVal(val: real, currency: Currency, rate: Rate): (f: Formatted)
    ensures currency == RUB ==> f.converted == val && f.sign == "₽" && f.minFractionDigits == 0
    ensures currency == USD ==> f.converted * rate == val && f.sign == "$" && f.minFractionDigits == 2
    ensures f.minFractionDigits <= f.maxFractionDigits == 2
  {
    if currency == RUB then Formatted(val, "₽", 0, 2)
    else Formatted(val / rate, "$", 2, 2)
  }

  /** The sign the page hands to the balance card and the chart. */
  function CardSign(currency: Currency): (sign: string)
    ensures sign == "₽" <==> currency == RUB
    ensures sign == "$" <==> currency == USD
  {
    match currency
    case RUB => assert "₽"[0] != "$"[0]; "₽"
    case USD => assert "₽"[0] != "$"[0]; "$"
  }

  /** The rate the page hands to them: one under roubles, the store's rate otherwise. */
  function CardRate(currency: Currency, rate: Rate): (r: Rate)
    ensures currency == RUB ==> r == 1.0
    ensures currency == USD ==> r == rate
  {
    if currency == RUB then 1.0 else rate
  }

  /** The balance card, given the page's sign and rate, converts and bounds the fraction
      digits exactly as `formatVal` does for the income and expense cards. */
  lemma CardAgreesWithFormatVal(val: real, currency: Currency, rate: Rate)
    ensures BalanceCard.DisplayAmount(val, CardSign(currency), CardRate(currency, rate)) == FormatVal(val, currency, rate).converted
    ensures BalanceCard.DigitsFor(CardSign(currency)) ==
      BalanceCard.FractionDigits(FormatVal(val, currency, rate).minFractionDigits, FormatVal(val, currency, rate).maxFractionDigits)
    ensures CardSign(currency) == FormatVal(val, currency, rate).sign
  {
    if currency == USD {
      var shown := BalanceCard.DisplayAmount(val, "$", rate);
      var f := FormatVal(val, currency, rate);
      Arith.CancelPositive(shown, f.converted, rate);
    }
  }

  /** What the exchange-rate call came back with: aborted by the 8-second timer, threw
      (network failure), or answered with a status and a body. */
  datatype FetchOutcome = TimedOut | Threw | Responded(ok: bool, body: RatesBody)

  /** The body as read: unreadable, or the `rates.RUB` field. The field is absent when
      the body, its `rates` or the field itself is missing or falsy (`0`, `NaN`, `""`,
      `null`). A present quote is a positive number; a truthy quote that is not one is
      not modelled. */
  datatype RatesBody = Unreadable | Rates(rub: Option<Rate>)

  /** The rate `fetchRate` leaves in the store. */
  function RateAfterFetch(o: FetchOutcome): (r: Rate)
    ensures r == FallbackRate || (o.Responded? && o.ok && o.body == Rates(Some(r)))
    ensures o.Responded? && o.ok && o.body.Rates? && o.body.rub.Some? ==> r == o.body.rub.value
  {
    match o
    case Responded(true, Rates(Some(r))) => r
    case _ => FallbackRate
  }

  /** Only an OK answer that carries `rates.RUB` sets that value; every failure gives 92. */
  lemma RateFetchRule(o: FetchOutcome)
    ensures (o.Responded? && o.ok && o.body.Rates? && o.body.rub.Some?) ==> RateAfterFetch(o) == o.body.rub.value
    ensures o == TimedOut || o == Threw ==> RateAfterFetch(o) == 92.0
    ensures o.Responded? && !o.ok ==> RateAfterFetch(o) == 92.0
    ensures o.Responded? && (o.body == Unreadable || o.body == Rates(None)) ==> RateAfterFetch(o) == 92.0
  {
  }

  method FetchRate(store: FinanceStore, o: FetchOutcome)
    modifies store
    ensures store.rate == RateAfterFetch(o)
    ensures store.transactions == old(store.transactions) && store.categories == old(store.categories)
    ensures store.theme == old(store.theme) && store.lang == old(store.lang) && store.currency == old(store.currency)
  {
    match o
    case TimedOut =>
      store.SetRate(FallbackRate);
    case Threw =>
      store.SetRate(FallbackRate);
    case Responded(ok, body) =>
      if !ok {
        store.SetRate(FallbackRate);
      } else if body.Unreadable? {
        store.SetRate(FallbackRate);
      } else if body.rub.Some? {
        store.SetRate(body.rub.value);
      } else {
        store.SetRate(FallbackRate);
      }
  }

  /** What signing in the user looked up before a delete came back with. */
  datatype UserLookup = UserFound(id: string) | NoUser | LookupThrew

  /** What the backend answered to the delete request. */
  datatype DeleteReply = DeleteOk | DeleteError | DeleteThrew

  /** The confirmation dialog's state: open or not, and the transaction it asks about. */
  datatype DeleteModal = DeleteModal(open: bool, target: Option<string>)

  const ClosedModal := DeleteModal(false, None)

  /** One effect of signing out, in the order the handler performs them. `SignOutCalled`
      records how many transactions and categories the store still held at that moment. */
  datatype LogoutStep = ClearedUserData | SignOutCalled(txsLeft: nat, catsLeft: nat) | Navigated(path: string)

  /** The home screen's own state. */
  class Home {
    var activeTab: Tab
    var activePeriod: Period
    var deleteModal: DeleteModal

    constructor ()
      ensures activeTab == TabAll && activePeriod == PeriodAll && deleteModal == ClosedModal
    {
      activeTab := TabAll;
      activePeriod := PeriodAll;
      deleteModal := ClosedModal;
    }

    /** The list, the totals and the chart all read this one filtered list. */
    function Filtered(store: FinanceStore, now: DateStamp): (r: seq<Transaction>)
      reads this, store
      ensures forall t :: t in r <==> t in store.transactions && Keeps(t, activePeriod, activeTab, now)
    {
      FilteredData(store.transactions, activePeriod, activeTab, now)
    }

    method SetActiveTab(tab: Tab)
      modifies this
      ensures activeTab == tab && activePeriod == old(activePeriod) && deleteModal == old(deleteModal)
    {
      activeTab := tab;
    }

    method SetActivePeriod(period: Period)
      modifies this
      ensures activePeriod == period && activeTab == old(activeTab) && deleteModal == old(deleteModal)
    {
      activePeriod := period;
    }

    /** The trash button of a row opens the dialog for that row. */
    method AskDelete(id: string)
      modifies this
      ensures deleteModal == DeleteModal(true, Some(id))
      ensures activeTab == old(activeTab) && activePeriod == old(activePeriod)
    {
      deleteModal := DeleteModal(true, Some(id));
    }

    /** `doDeleteTransaction`. */
    method DoDeleteTransaction(store: FinanceStore, tables: Backend.Tables, lookup: UserLookup, reply: DeleteReply)
      modifies this, store, tables
      ensures activeTab == old(activeTab) && activePeriod == old(activePeriod)
      ensures store.categories == old(store.categories) && store.rate == old(store.rate)
      ensures store.currency == old(store.currency) && store.theme == old(store.theme) && store.lang == old(store.lang)
      // no pending target, or no signed-in user: nothing changes, the dialog stays as it is
      ensures old(deleteModal.target).None? || lookup == NoUser ==>
        deleteModal == old(deleteModal) && store.transactions == old(store.transactions)
        && tables.transactions == old(tables.transactions)
      ensures old(deleteModal.target).Some? && lookup != NoUser ==> deleteModal == ClosedModal
      // the backend refused: the list stays
      ensures old(deleteModal.target).Some? && lookup.UserFound? && reply == DeleteError ==>
        store.transactions == old(store.transactions) && tables.transactions == old(tables.transactions)
      // success: the row goes from the backend and from the list
      ensures old(deleteModal.target).Some? && lookup.UserFound? && reply == DeleteOk ==>
        store.transactions == RemoveById(old(store.transactions), old(deleteModal.target.value))
        && tables.transactions == Backend.DeleteTransactionRows(old(tables.transactions), old(deleteModal.target.value), lookup.id)
      // something threw: the row leaves the list anyway
      ensures old(deleteModal.target).Some? && (lookup == LookupThrew || (lookup.UserFound? && reply == DeleteThrew)) ==>
        store.transactions == RemoveById(old(store.transactions), old(deleteModal.target.value))
        && tables.transactions == old(tables.transactions)
      ensures tables.categories == old(tables.categories)
    {
      if deleteModal.target.None? {
        return;
      }
      var id := deleteModal.target.value;
      match lookup {
        case NoUser =>
          return;
        case LookupThrew =>
          store.RemoveTransaction(id);
        case UserFound(user) =>
          match reply {
            case DeleteOk =>
              tables.DeleteTransaction(id, user);
              store.RemoveTransaction(id);
            case DeleteError =>
            case DeleteThrew =>
              store.RemoveTransaction(id);
          }
      }
      deleteModal := ClosedModal;
    }

    /** The dialog's close action. */
    method CloseDeleteModal()
      modifies this
      ensures deleteModal == ClosedModal
      ensures activeTab == old(activeTab) && activePeriod == old(activePeriod)
    {
      deleteModal := ClosedModal;
    }

    /** The dialog's delete button: the handler is started and the dialog's `onClose`
        follows, so the dialog ends closed even where the handler itself leaves it open. The
        handler reads the target it captured when the dialog was rendered, so closing first
        does not change what it deletes. */
    method ConfirmDeleteTransaction(store: FinanceStore, tables: Backend.Tables, lookup: UserLookup, reply: DeleteReply)
      modifies this, store, tables
      ensures deleteModal == ClosedModal
      ensures activeTab == old(activeTab) && activePeriod == old(activePeriod)
      ensures old(deleteModal.target).None? || lookup == NoUser ==>
        store.transactions == old(store.transactions) && tables.transactions == old(tables.transactions)
      ensures old(deleteModal.target).Some? && lookup.UserFound? && reply == DeleteOk ==>
        store.transactions == RemoveById(old(store.transactions), old(deleteModal.target.value))
        && tables.transactions == Backend.DeleteTransactionRows(old(tables.transactions), old(deleteModal.target.value), lookup.id)
      ensures old(deleteModal.target).Some? && lookup.UserFound? && reply == DeleteError ==>
        store.transactions == old(store.transactions) && tables.transactions == old(tables.transactions)
      ensures old(deleteModal.target).Some? && (lookup == LookupThrew || (lookup.UserFound? && reply == DeleteThrew)) ==>
        store.transactions == RemoveById(old(store.transactions), old(deleteModal.target.value))
        && tables.transactions == old(tables.transactions)
      ensures tables.categories == old(tables.categories) && store.categories == old(store.categories)
    {
      DoDeleteTransaction(store, tables, lookup, reply);
      CloseDeleteModal();
    }

    /** `handleLogout`: the store is emptied before signing out is requested, and the
        page goes to the login screen whether or not signing out throws. */
    method HandleLogout(store: FinanceStore, signOutThrows: bool) returns (steps: seq<LogoutStep>)
      modifies store
      ensures steps == [ClearedUserData, SignOutCalled(0, 0), Navigated("/login")]
      ensures store.transactions == [] && store.categories == []
      ensures store.theme == old(store.theme) && store.lang == old(store.lang)
      ensures store.currency == old(store.currency) && store.rate == old(store.rate)
    {
      store.ClearUserData();
      steps := [ClearedUserData];
      steps := steps + [SignOutCalled(|store.transactions|, |store.categories|)];
      if signOutThrows {
        // the error is logged and dropped
      }
      steps := steps + [Navigated("/login")];
    }

    /** The currency button switches between roubles and dollars. */
    method ToggleCurrency(store: FinanceStore)
      modifies store
      ensures store.currency == if old(store.currency) == RUB then USD else RUB
      ensures store.transactions == old(store.transactions) && store.categories == old(store.categories)
      ensures store.theme == old(store.theme) && store.lang == old(store.lang) && store.rate == old(store.rate)
    {
      store.SetCurrency(if store.currency == RUB then USD else RUB);
    }

    /** On first load, when the saved state holds no language, the browser's is adopted. */
    method InitLanguage(store: FinanceStore, savedLang: Option<string>, hasWindow: bool, browserLanguage: Option<string>)
      modifies store
      ensures savedLang.Some? && savedLang.value != "" ==> store.lang == old(store.lang)
      ensures savedLang.None? || savedLang.value == "" ==>
        store.lang == Translations.DetectBrowserLanguage(hasWindow, browserLanguage)
      ensures store.transactions == old(store.transactions) && store.categories == old(store.categories)
      ensures store.theme == old(store.theme) && store.currency == old(store.currency) && store.rate == old(store.rate)
    {
      if savedLang.None? || savedLang.value == "" {
        store.SetLang(Translations.DetectBrowserLanguage(hasWindow, browserLanguage));
      }
    }
  }
}
