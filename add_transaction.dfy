/** The add-transaction sheet: a two-step flow (amount and type, then a category), the
    save that converts the amount to roubles and prepends the inserted row to the store,
    and the category editor whose rename rewrites the user's transaction rows. */
module AddTransaction {
  import opened Types
  import opened Store
  import Backend
  import Page
  import Arith

  /** The icon a category without one is shown with, and the editor's starting icon. */
  const DefaultIcon: string := "📦"

  /** What the category editor is open for. */
  datatype Editor = NotEditing | EditingNew | EditingExisting(cat: Category)

  /** The confirmation dialog for deleting a category. */
  datatype CatModal = CatModal(open: bool, id: Option<string>)

  const ClosedCatModal := CatModal(false, None)

  /** The sheet's fields as one value. */
  datatype FlowState = FlowState(
    isOpen: bool,
    step: nat,
    amount: string,
    kind: TxType,
    localCats: seq<Category>,
    editing: Editor,
    catName: string,
    catIcon: string,
    showEmojiPicker: bool,
    deleteCatModal: CatModal)

  /** A user id the handlers go on with: present and not empty. */
  predicate Present(user: Option<string>)
  {
    user.Some? && user.value != ""
  }

  /** `c.icon || '📦'`: a missing or empty icon is shown as the default one. */
  function IconOr(icon: Option<string>): (r: string)
    ensures r != ""
    ensures icon.Some? && icon.value != "" ==> r == icon.value
    ensures icon.None? || icon.value == "" ==> r == DefaultIcon
  {
    if icon.Some? && icon.value != "" then icon.value else DefaultIcon
  }

  /** `finalAmount`: an amount typed in dollars is stored in roubles. The conversion keeps
      the sign and maps zero to zero. */
  function FinalAmount(parsed: real, currency: Currency, rate: Rate): (r: real)
    ensures (r > 0.0 <==> parsed > 0.0) && (r == 0.0 <==> parsed == 0.0)
    ensures currency == RUB ==> r == parsed
  {
    if currency == USD then
      var product := parsed * rate;
      assert parsed > 0.0 ==> product > 0.0 by {
        if parsed > 0.0 {
          Arith.MulMonotone(0.0, parsed, rate);
        }
      }
      assert parsed < 0.0 ==> product < 0.0 by {
        if parsed < 0.0 {
          Arith.MulMonotone(parsed, 0.0, rate);
        }
      }
      product
    else parsed
  }

  /** The amount saved from what was typed is shown again as what was typed: the page's
      `formatVal` undoes the conversion under the same currency and rate. */
  lemma FinalAmountRoundTrip(parsed: real, currency: Currency, rate: Rate)
    ensures Page.FormatVal(FinalAmount(parsed, currency, rate), currency, rate).converted == parsed
  {
    if currency == USD {
      var f := Page.FormatVal(FinalAmount(parsed, currency, rate), currency, rate);
      Arith.CancelPositive(f.converted, parsed, rate);
    }
  }

  /** The row the backend returns for an insert: the payload with the id and timestamp it
      assigned. */
  function InsertedRow(id: string, user: string, parsed: real, currency: Currency, rate: Rate,
                       kind: TxType, cat: Category, createdAt: Option<DateStamp>): (t: Transaction)
    ensures t.userId == user && t.kind == kind && t.category == cat.name
    ensures Page.FormatVal(t.amount, currency, rate).converted == parsed
  {
    FinalAmountRoundTrip(parsed, currency, rate);
    Transaction(id, user, FinalAmount(parsed, currency, rate), kind, cat.name, createdAt)
  }

  class AddFlow {
    var isOpen: bool
    var step: nat
    var amount: string
    var kind: TxType
    var localCats: seq<Category>
    var editing: Editor
    var catName: string
    var catIcon: string
    var showEmojiPicker: bool
    var deleteCatModal: CatModal

    function State(): FlowState
      reads this
    {
      FlowState(isOpen, step, amount, kind, localCats, editing, catName, catIcon, showEmojiPicker, deleteCatModal)
    }

    constructor ()
      ensures State() == FlowState(false, 1, "", Expense, [], NotEditing, "", DefaultIcon, false, ClosedCatModal)
    {
      isOpen := false;
      step := 1;
      amount := "";
      kind := Expense;
      localCats := [];
      editing := NotEditing;
      catName := "";
      catIcon := DefaultIcon;
      showEmojiPicker := false;
      deleteCatModal := ClosedCatModal;
    }

    /** The floating plus button opens the sheet where it was left. */
    method Open()
      modifies this
      ensures State() == old(State()).(isOpen := true)
    {
      isOpen := true;
    }

    method SetType(k: TxType)
      modifies this
      ensures State() == old(State()).(kind := k)
    {
      kind := k;
    }

    method SetAmount(s: string)
      modifies this
      ensures State() == old(State()).(amount := s)
    {
      amount := s;
    }

    /** The next button is shown on step 1 of the open sheet and is disabled while the
        amount is empty. */
    method Next()
      modifies this
      ensures old(isOpen && step == 1 && amount != "") ==> State() == old(State()).(step := 2)
      ensures !old(isOpen && step == 1 && amount != "") ==> State() == old(State())
    {
      if isOpen && step == 1 && amount != "" {
        step := 2;
      }
    }

    /** The back arrow of step 2. */
    method Back()
      modifies this
      ensures old(isOpen && step == 2) ==> State() == old(State()).(step := 1)
      ensures !old(isOpen && step == 2) ==> State() == old(State())
    {
      if isOpen && step == 2 {
        step := 1;
      }
    }

    /** `resetAll`: closed, at step 1, no amount, no editor, no picker; the type, the
        category list, the editor's fields and the dialog stay. */
    method ResetAll()
      modifies this
      ensures State() == old(State()).(isOpen := false, step := 1, amount := "", editing := NotEditing, showEmojiPicker := false)
    {
      isOpen := false;
      step := 1;
      amount := "";
      editing := NotEditing;
      showEmojiPicker := false;
    }

    /** `fetchCats`: the picker lists the user's categories of the current type. */
    method FetchCats(tables: Backend.Tables, user: Option<string>)
      modifies this
      ensures Present(user) ==> State() == old(State()).(localCats := Backend.UserCategoriesOfType(tables.categories, user.value, kind))
      ensures Present(user) ==> forall c :: c in localCats <==> c in tables.categories && c.userId == user.value && c.kind == kind
      ensures !Present(user) ==> State() == old(State())
    {
      if !Present(user) {
        return;
      }
      localCats := Backend.UserCategoriesOfType(tables.categories, user.value, kind);
    }

    /** `saveTransaction`: with a user and a successful insert, the row the backend
        returns goes to the table's end and to the front of the store's list, and the sheet
        resets; without a user or on an error nothing changes and the sheet stays at step
        2 with the amount kept. */
    method SaveTransaction(store: FinanceStore, tables: Backend.Tables, user: Option<string>, cat: Category,
                           parsed: real, rowId: string, createdAt: Option<DateStamp>, insertFails: bool)
      modifies this, store, tables
      ensures Present(user) && !insertFails ==>
        var row := InsertedRow(rowId, user.value, parsed, old(store.currency), old(store.rate), old(kind), cat, createdAt);
        tables.transactions == old(tables.transactions) + [row]
        && store.transactions == Prepend(row, old(store.transactions))
        && State() == old(State()).(isOpen := false, step := 1, amount := "", editing := NotEditing, showEmojiPicker := false)
      ensures !Present(user) || insertFails ==>
        State() == old(State()) && store.transactions == old(store.transactions)
        && tables.transactions == old(tables.transactions)
      ensures tables.categories == old(tables.categories)
      ensures store.categories == old(store.categories) && store.theme == old(store.theme) && store.lang == old(store.lang)
      ensures store.currency == old(store.currency) && store.rate == old(store.rate)
    {
      if !Present(user) {
        return;
      }
      var row := InsertedRow(rowId, user.value, parsed, store.currency, store.rate, kind, cat, createdAt);
      if insertFails {
        return;
      }
      tables.InsertTransaction(row);
      store.AddTransaction(row);
      ResetAll();
    }

    /** The pencil of a category opens the editor on it, with its icon or the default. */
    method StartEdit(c: Category)
      modifies this
      ensures State() == old(State()).(editing := EditingExisting(c), catName := c.name, catIcon := IconOr(c.icon))
    {
      editing := EditingExisting(c);
      catName := c.name;
      catIcon := IconOr(c.icon);
    }

    /** The create tile opens the editor for a new category, keeping the fields as they are. */
    method StartNew()
      modifies this
      ensures State() == old(State()).(editing := EditingNew)
    {
      editing := EditingNew;
    }

    method CloseEditor()
      modifies this
      ensures State() == old(State()).(editing := NotEditing)
    {
      editing := NotEditing;
    }

    method SetCatName(s: string)
      modifies this
      ensures State() == old(State()).(catName := s)
    {
      catName := s;
    }

    method TogglePicker()
      modifies this
      ensures State() == old(State()).(showEmojiPicker := !old(showEmojiPicker))
    {
      showEmojiPicker := !showEmojiPicker;
    }

    /** Picking an emoji sets the icon and hides the picker. */
    method PickIcon(e: string)
      modifies this
      ensures State() == old(State()).(catIcon := e, showEmojiPicker := false)
    {
      catIcon := e;
      showEmojiPicker := false;
    }

    /** The refresh after a category change: the picker's list and the store's list are
        both read back from the table. */
    method Refresh(store: FinanceStore, tables: Backend.Tables, user: string)
      requires user != ""
      modifies this, store
      ensures State() == old(State()).(localCats := Backend.UserCategoriesOfType(tables.categories, user, kind))
      ensures store.categories == Backend.UserCategories(tables.categories, user)
      ensures store.transactions == old(store.transactions) && store.theme == old(store.theme) && store.lang == old(store.lang)
      ensures store.currency == old(store.currency) && store.rate == old(store.rate)
    {
      FetchCats(tables, Some(user));
      store.SetCategories(Backend.UserCategories(tables.categories, user));
    }

    /** The backend writes of a category save: update and, on a new name, rename the
        transaction rows; or insert. The sheet itself is not touched. */
    method WriteCategory(tables: Backend.Tables, uid: string, newCatId: string)
      modifies tables
      ensures editing.EditingExisting? ==>
        tables.categories == Backend.UpdateCategoryRows(old(tables.categories), editing.cat.id, uid, catName, catIcon, kind)
        && tables.transactions ==
          (if editing.cat.name != catName
           then Backend.RenameCategoryRows(old(tables.transactions), editing.cat.name, catName, uid)
           else old(tables.transactions))
      ensures !editing.EditingExisting? ==>
        tables.categories == old(tables.categories) + [Category(newCatId, uid, catName, Some(catIcon), kind)]
        && tables.transactions == old(tables.transactions)
    {
      match editing {
        case EditingExisting(e) =>
          tables.UpdateCategory(e.id, uid, catName, catIcon, kind);
          if e.name != catName {
            tables.RenameTransactionsCategory(e.name, catName, uid);
          }
        case _ =>
          tables.InsertCategory(Category(newCatId, uid, catName, Some(catIcon), kind));
      }
    }

    /** `handleSaveCat`: an existing category is updated by id and, when its name
        changed, every transaction row of that user under the old name takes the new one;
        otherwise a new row is inserted. Both lists are then refreshed and the editor is
        cleared. The store's transactions are left alone. */
    method HandleSaveCat(store: FinanceStore, tables: Backend.Tables, user: Option<string>, newCatId: string)
      modifies this, store, tables
      ensures old(catName) == "" || !Present(user) ==>
        State() == old(State()) && tables.categories == old(tables.categories)
        && tables.transactions == old(tables.transactions) && store.categories == old(store.categories)
      ensures old(catName) != "" && Present(user) && old(editing).EditingExisting? ==>
        var e := old(editing).cat;
        tables.categories == Backend.UpdateCategoryRows(old(tables.categories), e.id, user.value, old(catName), old(catIcon), old(kind))
        && tables.transactions ==
          (if e.name != old(catName)
           then Backend.RenameCategoryRows(old(tables.transactions), e.name, old(catName), user.value)
           else old(tables.transactions))
      ensures old(catName) != "" && Present(user) && !old(editing).EditingExisting? ==>
        tables.categories == old(tables.categories) + [Category(newCatId, user.value, old(catName), Some(old(catIcon)), old(kind))]
        && tables.transactions == old(tables.transactions)
      ensures old(catName) != "" && Present(user) ==>
        store.categories == Backend.UserCategories(tables.categories, user.value)
        && State() == old(State()).(localCats := Backend.UserCategoriesOfType(tables.categories, user.value, old(kind)),
                                   editing := NotEditing, catName := "", catIcon := DefaultIcon, showEmojiPicker := false)
      ensures store.transactions == old(store.transactions) && store.theme == old(store.theme) && store.lang == old(store.lang)
      ensures store.currency == old(store.currency) && store.rate == old(store.rate)
    {
      if catName == "" || !Present(user) {
        return;
      }
      var uid := user.value;
      WriteCategory(tables, uid, newCatId);
      Refresh(store, tables, uid);
      editing := NotEditing;
      catName := "";
      catIcon := DefaultIcon;
      showEmojiPicker := false;
    }

    /** The trash button of a category opens the dialog for it. */
    method RequestDeleteCategory(id: string)
      modifies this
      ensures State() == old(State()).(deleteCatModal := CatModal(true, Some(id)))
    {
      deleteCatModal := CatModal(true, Some(id));
    }

    /** The dialog's close action. */
    method CloseDeleteModal()
      modifies this
      ensures State() == old(State()).(deleteCatModal := ClosedCatModal)
    {
      deleteCatModal := ClosedCatModal;
    }

    /** `doDeleteCategory`: without a target or a user nothing happens; otherwise only that
        user's row with that id goes, both lists are refreshed and the dialog closes.
        Transaction rows keep their category names. */
    method DoDeleteCategory(store: FinanceStore, tables: Backend.Tables, user: Option<string>)
      modifies this, store, tables
      ensures !Present(old(deleteCatModal.id)) || !Present(user) ==>
        State() == old(State()) && tables.categories == old(tables.categories) && store.categories == old(store.categories)
      ensures Present(old(deleteCatModal.id)) && Present(user) ==>
        tables.categories == Backend.DeleteCategoryRows(old(tables.categories), old(deleteCatModal.id.value), user.value)
        && store.categories == Backend.UserCategories(tables.categories, user.value)
        && State() == old(State()).(localCats := Backend.UserCategoriesOfType(tables.categories, user.value, old(kind)),
                                   deleteCatModal := ClosedCatModal)
      ensures tables.transactions == old(tables.transactions) && store.transactions == old(store.transactions)
      ensures store.theme == old(store.theme) && store.lang == old(store.lang)
      ensures store.currency == old(store.currency) && store.rate == old(store.rate)
    {
      if !Present(deleteCatModal.id) || !Present(user) {
        return;
      }
      tables.DeleteCategory(deleteCatModal.id.value, user.value);
      Refresh(store, tables, user.value);
      deleteCatModal := ClosedCatModal;
    }

    /** The dialog's delete button: the handler runs and the dialog closes in any case. */
    method ConfirmDeleteCategory(store: FinanceStore, tables: Backend.Tables, user: Option<string>)
      modifies this, store, tables
      ensures deleteCatModal == ClosedCatModal
      ensures Present(old(deleteCatModal.id)) && Present(user) ==>
        tables.categories == Backend.DeleteCategoryRows(old(tables.categories), old(deleteCatModal.id.value), user.value)
      ensures !Present(old(deleteCatModal.id)) || !Present(user) ==> tables.categories == old(tables.categories)
      ensures tables.transactions == old(tables.transactions) && store.transactions == old(store.transactions)
    {
      DoDeleteCategory(store, tables, user);
      CloseDeleteModal();
    }
  }
}
