/** The finance store: one shared state object holding the user's transactions and
    categories as mirrored from the backend, and the interface preferences. */
module Store {
  import opened Types

  datatype Theme = Light | Dark
  datatype Lang = Ru | En
  datatype Currency = RUB | USD

  /** An exchange rate: roubles per dollar, always positive. */
  type Rate = r: real | r > 0.0 witness 1.0

  const DefaultRate: Rate := 90.0
  const DefaultTheme: Theme := Dark

  /** The attribute value a theme is written as. */
  function ThemeName(t: Theme): (s: string)
    ensures (t == Light <==> s == "light") && (t == Dark <==> s == "dark")
  {
    match t
    case Light => "light"
    case Dark => "dark"
  }

  /** The store's fields as a value, for stating what a sequence of setters leaves behind. */
  datatype StoreState = StoreState(
    transactions: seq<Transaction>,
    categories: seq<Category>,
    theme: Theme,
    lang: Lang,
    currency: Currency,
    rate: Rate)

  /** `[t, ...list]`. */
  function Prepend(t: Transaction, list: seq<Transaction>): (r: seq<Transaction>)
    ensures |r| == |list| + 1 && r[0] == t && r[1..] == list
  {
    [t] + list
  }

  /** `list.filter(tx => tx.id !== id)`. */
  function RemoveById(list: seq<Transaction>, id: string): (r: seq<Transaction>)
    ensures |r| <= |list|
    ensures forall t :: t in r <==> t in list && t.id != id
  {
    if list == [] then []
    else if list[0].id == id then RemoveById(list[1..], id)
    else [list[0]] + RemoveById(list[1..], id)
  }

  /** `a` is `b` with some elements left out, the rest in their original order. */
  predicate IsSubsequence<T(==)>(a: seq<T>, b: seq<T>)
    decreases |b|
  {
    if a == [] then true
    else if b == [] then false
    else if a[0] == b[0] then IsSubsequence(a[1..], b[1..])
    else IsSubsequence(a, b[1..])
  }

  lemma {:induction false} RemoveByIdKeepsOrder(list: seq<Transaction>, id: string)
    ensures IsSubsequence(RemoveById(list, id), list)
    decreases |list|
  {
    if list != [] {
      RemoveByIdKeepsOrder(list[1..], id);
      var rest := RemoveById(list[1..], id);
      if list[0].id != id {
        assert ([list[0]] + rest)[1..] == rest;
      } else {
        SubsequenceOfTail(rest, list);
      }
    }
  }

  lemma {:induction false} SubsequenceOfTail<T>(a: seq<T>, b: seq<T>)
    requires b != [] && IsSubsequence(a, b[1..])
    ensures IsSubsequence(a, b)
    decreases |b|, 0
  {
    if a != [] && a[0] == b[0] {
      SubsequenceDropHead(a, b[1..]);
    }
  }

  lemma {:induction false} SubsequenceDropHead<T>(a: seq<T>, b: seq<T>)
    requires a != [] && IsSubsequence(a, b)
    ensures IsSubsequence(a[1..], b)
    decreases |b|, 1
  {
    if a[0] == b[0] {
      if a[1..] != [] {
        SubsequenceOfTail(a[1..], b);
      }
    } else {
      SubsequenceDropHead(a, b[1..]);
      if a[1..] != [] {
        SubsequenceOfTail(a[1..], b);
      }
    }
  }

  /** Removing an id that no entry carries leaves the contents as they were. */
  lemma {:induction false} RemoveAbsentId(list: seq<Transaction>, id: string)
    requires forall t :: t in list ==> t.id != id
    ensures RemoveById(list, id) == list
    decreases |list|
  {
    if list != [] {
      RemoveAbsentId(list[1..], id);
      assert [list[0]] + list[1..] == list;
    }
  }

  /** Adding a transaction with a fresh id and then removing that id restores the list. */
  lemma AddThenRemove(list: seq<Transaction>, t: Transaction)
    requires forall u :: u in list ==> u.id != t.id
    ensures RemoveById(Prepend(t, list), t.id) == list
  {
    assert Prepend(t, list)[1..] == list;
    RemoveAbsentId(list, t.id);
  }

  /** The state object: the data collections and the preferences, with their setters. */
  class FinanceStore {
    var transactions: seq<Transaction>
    var categories: seq<Category>
    var theme: Theme
    var lang: Lang
    var currency: Currency
    var rate: Rate

    /** The whole state as one value. */
    function Snapshot(): StoreState
      reads this
    {
      StoreState(transactions, categories, theme, lang, currency, rate)
    }

    /** The initial state. */
    constructor ()
      ensures transactions == [] && categories == []
      ensures theme == DefaultTheme && lang == Ru && currency == RUB && rate == DefaultRate
    {
      transactions := [];
      categories := [];
      theme := DefaultTheme;
      lang := Ru;
      currency := RUB;
      rate := DefaultRate;
    }

    method SetTransactions(list: seq<Transaction>)
      modifies this
      ensures transactions == list
      ensures categories == old(categories) && theme == old(theme) && lang == old(lang)
      ensures currency == old(currency) && rate == old(rate)
    {
      transactions := list;
    }

    method AddTransaction(t: Transaction)
      modifies this
      ensures transactions == Prepend(t, old(transactions))
      ensures categories == old(categories) && theme == old(theme) && lang == old(lang)
      ensures currency == old(currency) && rate == old(rate)
    {
      transactions := [t] + transactions;
    }

    method RemoveTransaction(id: string)
      modifies this
      ensures transactions == RemoveById(old(transactions), id)
      ensures categories == old(categories) && theme == old(theme) && lang == old(lang)
      ensures currency == old(currency) && rate == old(rate)
    {
      transactions := RemoveById(transactions, id);
    }

    method SetCategories(list: seq<Category>)
      modifies this
      ensures categories == list
      ensures transactions == old(transactions) && theme == old(theme) && lang == old(lang)
      ensures currency == old(currency) && rate == old(rate)
    {
      categories := list;
    }

    method SetTheme(t: Theme)
      modifies this
      ensures theme == t
      ensures transactions == old(transactions) && categories == old(categories)
      ensures lang == old(lang) && currency == old(currency) && rate == old(rate)
    {
      theme := t;
    }

    method SetLang(l: Lang)
      modifies this
      ensures lang == l
      ensures transactions == old(transactions) && categories == old(categories)
      ensures theme == old(theme) && currency == old(currency) && rate == old(rate)
    {
      lang := l;
    }

    method SetCurrency(c: Currency)
      modifies this
      ensures currency == c
      ensures transactions == old(transactions) && categories == old(categories)
      ensures theme == old(theme) && lang == old(lang) && rate == old(rate)
    {
      currency := c;
    }

    method SetRate(r: Rate)
      modifies this
      ensures rate == r
      ensures transactions == old(transactions) && categories == old(categories)
      ensures theme == old(theme) && lang == old(lang) && currency == old(currency)
    {
      rate := r;
    }

    /** Empties both collections; the preferences stay. */
    method ClearUserData()
      modifies this
      ensures transactions == [] && categories == []
      ensures theme == old(theme) && lang == old(lang)
      ensures currency == old(currency) && rate == old(rate)
    {
      transactions := [];
      categories := [];
    }
  }

  /** Setting the theme twice leaves the state the first call left: `once` is the state
      after the first call, and the second call keeps it. The three methods after this one
      say the same of the other preference setters. */
  method SetThemeTwice(s: FinanceStore, t: Theme) returns (once: StoreState)
    modifies s
    ensures once == old(s.Snapshot()).(theme := t)
    ensures s.Snapshot() == once
  {
    s.SetTheme(t);
    once := s.Snapshot();
    s.SetTheme(t);
  }

  method SetLangTwice(s: FinanceStore, l: Lang) returns (once: StoreState)
    modifies s
    ensures once == old(s.Snapshot()).(lang := l)
    ensures s.Snapshot() == once
  {
    s.SetLang(l);
    once := s.Snapshot();
    s.SetLang(l);
  }

  method SetCurrencyTwice(s: FinanceStore, c: Currency) returns (once: StoreState)
    modifies s
    ensures once == old(s.Snapshot()).(currency := c)
    ensures s.Snapshot() == once
  {
    s.SetCurrency(c);
    once := s.Snapshot();
    s.SetCurrency(c);
  }

  method SetRateTwice(s: FinanceStore, r: Rate) returns (once: StoreState)
    modifies s
    ensures once == old(s.Snapshot()).(rate := r)
    ensures s.Snapshot() == once
  {
    s.SetRate(r);
    once := s.Snapshot();
    s.SetRate(r);
  }

  /** A client of the store: adding then removing a fresh transaction restores the list. */
  method AddThenRemoveClient(s: FinanceStore, t: Transaction)
    requires forall u :: u in s.transactions ==> u.id != t.id
    modifies s
    ensures s.transactions == old(s.transactions)
    ensures s.categories == old(s.categories) && s.rate == old(s.rate)
  {
    s.AddTransaction(t);
    assert s.transactions[0] == t;
    s.RemoveTransaction(t.id);
    AddThenRemove(old(s.transactions), t);
  }
}
