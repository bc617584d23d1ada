# ZenFinance core, modelled in Dafny

ZenFinance is a personal-finance web app. A user records income and expense
transactions, names each one with a category, and sees a balance, income and expense
totals, a history filtered by period and type, and a chart of spending by category. This
project models the app's core as Dafny code and proves properties of that model. The core
consists of:

- the shared finance store: transactions, categories, theme, language, currency and
  exchange rate, with their setters;
- the home screen:
  - the period/tab filter, the totals and `formatVal`;
  - the exchange-rate fallback;
  - the delete and sign-out handlers;
  - the first-load language choice;
  - the props passed to the balance card;
- the category chart:
  - grouping by category name, sorting in descending order, the total and shares;
  - the selected slice;
- the add-transaction sheet:
  - the two-step flow;
  - the dollar-to-rouble conversion on save;
  - the category editor, whose rename rewrites that user's transaction rows;
  - category deletion;
- the translation tables and browser-language detection;
- the balance card's conversion;
- the theme applied before the first paint.

The hosted backend's two tables appear as in-memory sequences (module `Backend`). Each
filtered call (`.eq(column, value)`) is modelled as the exact bulk update it requests, so a
rename or delete can be stated row by row. Code that changes state step by step is modelled
as classes with `modifies` clauses:

- `Store.FinanceStore`;
- `Page.Home`;
- `Chart.ChartState`;
- `AddTransaction.AddFlow`;
- `Backend.Tables`.

The chart's grouping loop is a `while` loop, proved against the function `Chart.Grouped`.
Pure expressions are functions with lemmas about them.

Modules, one per file:

- `Types` (types.dfy): the records and enumerations;
- `Store` (store.dfy);
- `Backend` (backend.dfy);
- `Page` (page.dfy);
- `Chart` (chart.dfy);
- `AddTransaction` (add_transaction.dfy);
- `Translations` (translations.dfy);
- `BalanceCard` (balance_card.dfy);
- `Layout` (layout.dfy);
- `Arith` (arith.dfy): three facts about multiplying reals by a positive factor.

**Totals follow the code.** The income and expense totals, and therefore the balance, are
computed over the list the page has already filtered by period *and* tab
(src/app/page.tsx:182-183). Under the tab `income` the expense total is therefore zero.
The model follows the code (`Page.TabZeroesOtherTotal`), not a reading in which the totals
ignore the tab.

## Model

| member | source | states |
|---|---|---|
| Types.TypeName | src/types.ts:5 | a transaction type is written as `income` or `expense` |
| Types.ParseType | src/types.ts:5 | only the two wire names are accepted as a type |
| Types.TypeNameRoundTrip | src/types.ts:5 | reading a written type gives that type back |
| Types.TabName | src/types.ts:19 | a tab is written as `all` exactly when it is the tab admitting everything |
| Types.TabAdmits | src/app/page.tsx:178 | the tab test, comparing wire names: it admits every type under `all`, and otherwise exactly the type named by the tab |
| Store.Prepend | src/store/useStore.tsx:49-51 | the new item is at index 0, followed by the old list unchanged; the length grows by one |
| Store.RemoveById | src/store/useStore.tsx:53-55 | an item is kept exactly when it was in the list and its id differs; the list does not grow |
| Store.RemoveByIdKeepsOrder | src/store/useStore.tsx:53-55 | the items that remain keep their original relative order |
| Store.RemoveAbsentId | src/store/useStore.tsx:53-55 | removing an id that no item carries leaves the list as it was |
| Store.AddThenRemove | src/store/useStore.tsx:49-55 | adding a transaction with a fresh id and then removing that id restores the list |
| Store.FinanceStore.constructor | src/store/useStore.tsx:39-44 | the store starts empty, dark, Russian, in roubles, at rate 90 |
| Store.FinanceStore.SetTransactions | src/store/useStore.tsx:47 | replaces the transactions; every other field is unchanged |
| Store.FinanceStore.AddTransaction | src/store/useStore.tsx:49-51 | the transactions become the new one prepended to the old list; every other field is unchanged |
| Store.FinanceStore.RemoveTransaction | src/store/useStore.tsx:53-55 | the transactions become the old ones without that id; every other field is unchanged |
| Store.FinanceStore.SetCategories | src/store/useStore.tsx:57 | replaces the categories; every other field is unchanged |
| Store.FinanceStore.SetTheme | src/store/useStore.tsx:59 | sets the theme; every other field is unchanged |
| Store.FinanceStore.SetLang | src/store/useStore.tsx:60 | sets the language; every other field is unchanged |
| Store.FinanceStore.SetCurrency | src/store/useStore.tsx:62 | sets the currency; every other field is unchanged |
| Store.FinanceStore.SetRate | src/store/useStore.tsx:63 | sets the (positive) rate; every other field is unchanged |
| Store.FinanceStore.ClearUserData | src/store/useStore.tsx:65 | empties transactions and categories and keeps every preference |
| Store.ThemeName | src/store/useStore.tsx:12 | a theme is written as `light` exactly when it is light, and as `dark` exactly when it is dark |
| Store.SetThemeTwice | src/store/useStore.tsx:59 | after a first `setTheme(t)` only the theme has changed, and a second call with the same value keeps that state |
| Store.SetLangTwice | src/store/useStore.tsx:60 | after a first `setLang(l)` only the language has changed, and a second call keeps that state |
| Store.SetCurrencyTwice | src/store/useStore.tsx:62 | after a first `setCurrency(c)` only the currency has changed, and a second call keeps that state |
| Store.SetRateTwice | src/store/useStore.tsx:63 | after a first `setRate(r)` only the rate has changed, and a second call keeps that state |
| Store.AddThenRemoveClient | src/store/useStore.tsx:49-55 | on the store object, adding a fresh transaction and removing it by id restores the list |
| Backend.RenameCategoryRows | src/components/AddTransaction.tsx:102-106 | each row with the old name and that user takes the new name; every other row is unchanged, in place |
| Backend.RenameLeavesNoOldName | src/components/AddTransaction.tsx:102-106 | after a rename, none of that user's rows keeps the old name, whatever its type |
| Backend.RenameSparesOtherUsers | src/components/AddTransaction.tsx:102-106 | another user's row comes through a rename unchanged |
| Backend.RenameToSameName | src/components/AddTransaction.tsx:101-107 | renaming to the same name changes nothing, so skipping the rewrite when the name is unchanged loses nothing |
| Backend.RenameRoundTrip | src/components/AddTransaction.tsx:102-106 | renaming and then renaming back restores the rows, provided none of that user's rows already carried the new name |
| Backend.UpdateCategoryRows | src/components/AddTransaction.tsx:95-99 | the row with that id and user takes the payload's name, icon and type; the other rows are unchanged |
| Backend.DeleteCategoryRows | src/components/AddTransaction.tsx:128-132 | a category row goes exactly when both its id and its user match |
| Backend.DeleteTransactionRows | src/app/page.tsx:150-154 | a transaction row goes exactly when both its id and its user match |
| Backend.UserCategories | src/components/AddTransaction.tsx:114 | the refetched list holds exactly that user's categories |
| Backend.UserCategoriesOfType | src/components/AddTransaction.tsx:46-52 | the picker lists exactly that user's categories of the current type |
| Backend.Tables.InsertTransaction | src/components/AddTransaction.tsx:160-163 | appends the row to the transactions table |
| Backend.Tables.DeleteTransaction | src/app/page.tsx:150-154 | the transactions table loses exactly the matching rows |
| Backend.Tables.RenameTransactionsCategory | src/components/AddTransaction.tsx:102-106 | the transactions table is rewritten by the rename |
| Backend.Tables.InsertCategory | src/components/AddTransaction.tsx:109 | appends the row to the categories table |
| Backend.Tables.UpdateCategory | src/components/AddTransaction.tsx:95-99 | the categories table is updated by id and user |
| Backend.Tables.DeleteCategory | src/components/AddTransaction.tsx:128-132 | the categories table loses that user's row with that id; the transactions table is untouched |
| Page.PeriodMatch | src/app/page.tsx:172-177 | period `all` admits every transaction; every other period needs a timestamp; the day filter admits only dates in the current month |
| Page.FilteredData | src/app/page.tsx:170-180 | a transaction is listed exactly when it was in the store and passes both the period and the tab test |
| Page.FilteredKeepsOrder | src/app/page.tsx:170-180 | the filtered list keeps the store's order |
| Page.FilterAllIsIdentity | src/app/page.tsx:170-180 | with period `all` and tab `all` (the initial filters) the list is the store's list |
| Page.FilterByTab | src/app/page.tsx:178 | under a type tab only transactions of that type survive |
| Page.MonthIgnoresYear | src/app/page.tsx:175-177 | the month filter compares the month of the year only, unlike the day filter |
| Page.MissingDatePassesOnlyAll | src/app/page.tsx:172-177 | a transaction without a usable timestamp passes the period `all` and no other |
| Page.NowPassesEveryPeriod | src/app/page.tsx:174-177 | a transaction stamped with the current instant passes every period |
| Page.OfType | src/app/page.tsx:182-183 | keeps exactly the transactions of the given type |
| Page.TotalsPartition | src/app/page.tsx:182-183 | the income sum and the expense sum of a list add up to the sum of all its amounts: every transaction counts in exactly one total |
| Page.IncomeTotal | src/app/page.tsx:182 | `inc` and `exp` together make up the sum of all the list's amounts; a list holding only expenses has income 0 |
| Page.ExpenseTotal | src/app/page.tsx:183 | a list holding only income has expenses 0 |
| Page.Balance | src/app/page.tsx:182-183 | the balance plus the expense total is the income total |
| Page.TabZeroesOtherTotal | src/app/page.tsx:178-183 | under tab `income` the expense total is zero and the balance equals the income total; under tab `expense`, the income total is zero |
| Page.ChartSeesTab | src/app/page.tsx:267-271 | the chart is given the tab-filtered list, so under tab `income` the expense chart has no slices, and under tab `expense` the income chart has none |
| Page.IncomeSameUnderAllAndIncome | src/app/page.tsx:178-182 | the income card sums the same transactions under tab `all` as under tab `income` |
| Page.FormatVal | src/app/page.tsx:92-102 | roubles are shown unchanged with `₽` and at least 0 fraction digits; dollars are shown as the amount over the rate with `$` and at least 2 digits; at most 2 digits either way |
| Page.CardSign | src/app/page.tsx:240 | the card's sign is `₽` exactly under roubles and `$` exactly under dollars |
| Page.CardRate | src/app/page.tsx:241 | the card's rate is 1 under roubles and the store's rate under dollars |
| Page.CardAgreesWithFormatVal | src/app/page.tsx:237-242 | given the page's sign and rate, the balance card shows the same number, sign and digit bounds as `formatVal` |
| Page.RateAfterFetch | src/app/page.tsx:72-86 | the rate left in the store is 92 or the quote of an OK answer, and an OK answer carrying a quote sets that quote |
| Page.RateFetchRule | src/app/page.tsx:72-86 | an OK answer that carries `rates.RUB` sets that rate; a timeout, a thrown error, a non-OK status or a missing quote gives 92 |
| Page.FetchRate | src/app/page.tsx:61-87 | the store's rate becomes the fetch outcome's rate; nothing else in the store changes |
| Page.Home.constructor | src/app/page.tsx:38-41 | starts on tab `all`, period `all`, with the dialog closed |
| Page.Home.Filtered | src/app/page.tsx:170-180 | the screen's list is the store's transactions that pass the active period and tab |
| Page.Home.SetActiveTab | src/app/page.tsx:38 | sets the tab only |
| Page.Home.SetActivePeriod | src/app/page.tsx:39 | sets the period only |
| Page.Home.AskDelete | src/app/page.tsx:312 | opens the dialog for that transaction's id |
| Page.Home.DoDeleteTransaction | src/app/page.tsx:140-167 | no target or no user: nothing changes. A backend error keeps the list. Success removes the row from the table and from the list. A throw removes it from the list only. With a target, the dialog closes unless no user was found |
| Page.Home.CloseDeleteModal | src/app/page.tsx:335 | the dialog's `onClose` closes it and clears its target; the filters stay |
| Page.Home.ConfirmDeleteTransaction | src/components/AppModal.tsx:105-108 | the delete button runs `doDeleteTransaction` and then `onClose`: the table and the list change as the handler's outcome says, and the dialog ends closed in every case, the no-user case included |
| Page.Home.HandleLogout | src/app/page.tsx:130-138 | the store is cleared before sign-out is requested, and the page goes to `/login` whether or not sign-out throws; preferences stay |
| Page.Home.ToggleCurrency | src/app/page.tsx:210 | switches roubles and dollars; nothing else changes |
| Page.Home.InitLanguage | src/app/page.tsx:48-58 | a saved language is kept; without one the browser's language is adopted |
| Chart.FindGroup | src/components/Chart.tsx:96 | finds the first group with that name, or reports that none has it |
| Chart.AddToGroups | src/components/Chart.tsx:94-98 | one step never renames or drops an existing group and adds at most one group |
| Chart.Grouped | src/components/Chart.tsx:90-100 | the groups after the loop: at most one per transaction |
| Chart.GroupedEmpty | src/components/Chart.tsx:91-100 | there are no groups exactly when no transaction has the selected type and a non-zero amount |
| Chart.InsertDesc | src/components/Chart.tsx:101 | one insertion step of the stable sort adds exactly one element; its order and contents are the two lemmas below |
| Chart.SortDesc | src/components/Chart.tsx:101 | the sort keeps the number of groups; its order, permutation and stability are the sort lemmas below |
| Chart.BuildChartData | src/components/Chart.tsx:87-102 | the grouping loop produces the sort of the grouped participating transactions |
| Chart.InsertDescSorted | src/components/Chart.tsx:101 | inserting into a descending list keeps it descending |
| Chart.SortDescIsSorted | src/components/Chart.tsx:101 | the chart is in descending order of value |
| Chart.SortDescPermutes | src/components/Chart.tsx:101 | the sort is a permutation of the groups |
| Chart.SortDescIsStable | src/components/Chart.tsx:101 | groups with equal values keep their order of first appearance |
| Chart.SortDescSum | src/components/Chart.tsx:101-104 | sorting does not change the sum of the values |
| Chart.ParticipatingTotal | src/components/Chart.tsx:91-95 | the sum of the absolute amounts of the participating transactions is never negative |
| Chart.CategoryTotal | src/components/Chart.tsx:91-97 | one category's sum of absolute amounts lies between 0 and the sum over all participating transactions |
| Chart.GroupedTotal | src/components/Chart.tsx:92-104 | `total` is the sum of the absolute amounts of the participating transactions of the selected type |
| Chart.GroupedWellFormed | src/components/Chart.tsx:94-98 | every group has a positive value and a non-empty name, and only `—` groups can share a name |
| Chart.EmptyCategoryOpensNewGroup | src/components/Chart.tsx:96-98 | a transaction with no category never finds a group and always opens a new `—` group |
| Chart.GroupedHasName | src/components/Chart.tsx:92-98 | for a name other than the empty one and `—`, a group exists exactly when some participating transaction has that category |
| Chart.GroupedValue | src/components/Chart.tsx:94-98 | such a group is the only one with its name, and its value is the sum of that category's absolute amounts |
| Chart.ChartTotalAndValues | src/components/Chart.tsx:87-104 | the sorted chart keeps the total and each named group's value |
| Chart.GroupingExampleSteps | src/components/Chart.tsx:90-100 | expenses A 30, B 10 and A 20 give the groups A 50, B 10 before sorting |
| Chart.GroupingExample | src/components/Chart.tsx:87-102 | expenses A 30, B 10 and A 20 give the chart A 50, B 10 |
| Chart.DisplayTotal | src/components/Chart.tsx:105-108 | zero for a zero total, the total under `₽`, otherwise the total over the rate |
| Chart.Share | src/components/Chart.tsx:246 | the share times the total is the value in percent when the total is positive, else 0 |
| Chart.SharesAddUp | src/components/Chart.tsx:246 | the shares of all groups add up to 100 |
| Chart.ShareBounds | src/components/Chart.tsx:101-246 | every group of the chart has a share above 0 and at most 100 |
| Chart.ChartState.constructor | src/components/Chart.tsx:69-70 | starts on `expense` with nothing selected |
| Chart.ChartState.HandleClick | src/components/Chart.tsx:113-116 | clicking the selected slice clears the selection, and clicking another slice selects that one |
| Chart.ChartState.CloseDetails | src/components/Chart.tsx:321-322 | the details panel's close button clears the selection and keeps the view |
| Chart.ChartState.SetView | src/components/Chart.tsx:77-79 | switching to the other type clears the selection |
| Chart.ChartState.Render | src/components/Chart.tsx:82-111 | renders nothing exactly when the rate is not positive; otherwise the sorted groups, the total, the displayed total, and the selected group with its share, the selection counting only while it indexes a group |
| AddTransaction.FinalAmount | src/components/AddTransaction.tsx:150-151 | the stored amount has the sign of the typed one and is the typed one under roubles |
| AddTransaction.FinalAmountRoundTrip | src/components/AddTransaction.tsx:150-151 | `formatVal` under the same currency and rate shows the typed amount again |
| AddTransaction.InsertedRow | src/components/AddTransaction.tsx:153-158 | the new row carries the user, the current type and the chosen category's name, and its amount shows as typed |
| AddTransaction.IconOr | src/components/AddTransaction.tsx:261 | the icon shown for a category: a non-empty icon is kept, and a missing or empty one (falsy in JavaScript) gives `📦`; the result is never empty |
| AddTransaction.AddFlow.constructor | src/components/AddTransaction.tsx:22-32 | closed, step 1, no amount, `expense`, no editor, icon `📦`, picker hidden, dialog closed |
| AddTransaction.AddFlow.Open | src/components/AddTransaction.tsx:183 | opens the sheet and changes nothing else |
| AddTransaction.AddFlow.SetType | src/components/AddTransaction.tsx:214 | sets the type only |
| AddTransaction.AddFlow.SetAmount | src/components/AddTransaction.tsx:227 | sets the amount text only |
| AddTransaction.AddFlow.Next | src/components/AddTransaction.tsx:237-238 | moves from step 1 to step 2 exactly when the amount is not empty, and otherwise changes nothing |
| AddTransaction.AddFlow.Back | src/components/AddTransaction.tsx:249 | returns from step 2 to step 1 |
| AddTransaction.AddFlow.ResetAll | src/components/AddTransaction.tsx:171-177 | closed, step 1, empty amount, no editor, picker hidden; the type is untouched |
| AddTransaction.AddFlow.FetchCats | src/components/AddTransaction.tsx:43-53 | with a user, the picker lists exactly that user's categories of the current type; without one, nothing changes |
| AddTransaction.AddFlow.SaveTransaction | src/components/AddTransaction.tsx:146-169 | success appends the row to the table, prepends it to the store and resets the sheet; no user or an error changes nothing |
| AddTransaction.AddFlow.StartEdit | src/components/AddTransaction.tsx:261 | opens the editor on that category with its name and its icon, `📦` when the icon is missing or empty; nothing else changes |
| AddTransaction.AddFlow.StartNew | src/components/AddTransaction.tsx:266 | opens the editor for a new category |
| AddTransaction.AddFlow.CloseEditor | src/components/AddTransaction.tsx:278 | closes the editor only |
| AddTransaction.AddFlow.SetCatName | src/components/AddTransaction.tsx:285 | sets the editor's name only |
| AddTransaction.AddFlow.TogglePicker | src/components/AddTransaction.tsx:282 | toggles the emoji picker only |
| AddTransaction.AddFlow.PickIcon | src/components/AddTransaction.tsx:292 | sets the icon and hides the picker |
| AddTransaction.AddFlow.Refresh | src/components/AddTransaction.tsx:113-115 | the picker's list and the store's categories are read back from the table; the store's transactions are unchanged |
| AddTransaction.AddFlow.WriteCategory | src/components/AddTransaction.tsx:94-110 | when editing an existing category: update that row by id and user, and rename the transaction rows only when the name changed. Otherwise: insert the payload row |
| AddTransaction.AddFlow.HandleSaveCat | src/components/AddTransaction.tsx:81-121 | an empty name or no user changes nothing. An existing category is updated, and its old name is rewritten on that user's transaction rows only if the name changed. Otherwise a row is inserted. Both lists are then refreshed and the editor resets to `''` and `📦`. The store's transactions are untouched |
| AddTransaction.AddFlow.RequestDeleteCategory | src/components/AddTransaction.tsx:140-143 | opens the dialog for that category |
| AddTransaction.AddFlow.CloseDeleteModal | src/components/AddTransaction.tsx:311 | closes the dialog only |
| AddTransaction.AddFlow.DoDeleteCategory | src/components/AddTransaction.tsx:123-138 | no target or no user changes nothing. Otherwise only that user's row with that id goes, both lists are refreshed and the dialog closes. Transaction rows are untouched |
| AddTransaction.AddFlow.ConfirmDeleteCategory | src/components/AddTransaction.tsx:309-317 | the dialog's delete button runs the handler and the dialog ends closed in every case |
| Translations.SameKeys | src/lib/translations.ts:1-142 | the Russian and English tables define the same keys |
| Translations.KeyInEnglish | src/lib/translations.ts:161-162 | every key of the Russian table is a key of the English one, so `Translate` resolves in both languages |
| Translations.LowerChar | src/lib/translations.ts:151 | a letter A to Z becomes its lower-case ASCII letter; every other character is kept; no capital A to Z is left |
| Translations.Lower | src/lib/translations.ts:151 | the lower-cased tag has the same length, each character lower-cased on its own |
| Translations.PrimarySubtag | src/lib/translations.ts:151 | the primary subtag contains no hyphen, and it is either the whole tag or the part before the first hyphen |
| Translations.DetectBrowserLanguage | src/lib/translations.ts:148-159 | English without a window or without a browser language; the full rule is the lemma below |
| Translations.DetectRule | src/lib/translations.ts:148-159 | Russian exactly when there is a window and the lower-cased primary subtag is `ru`, `uk` or `be`; English without a window or without a language |
| Translations.OnlyPrimarySubtagMatters | src/lib/translations.ts:151 | what follows the first hyphen does not change the answer |
| Translations.CaseDoesNotMatter | src/lib/translations.ts:151 | the answer is the same for a tag and its lower-cased form |
| Translations.DetectExamplesRussian | src/lib/translations.ts:151-156 | `uk-UA` and `BE` give Russian |
| Translations.DetectExamplesEnglish | src/lib/translations.ts:149-158 | `en-US` and `kk-KZ` give English, and so does `ru-RU` without a window |
| BalanceCard.DisplayAmount | src/components/BalanceCard.tsx:14 | under `₽` the amount is shown as given; under another sign, the shown value times the rate is the amount |
| BalanceCard.DigitsFor | src/components/BalanceCard.tsx:28-31 | at most 2 fraction digits; at least 2 exactly under `$`, and at least 0 otherwise |
| Layout.ResolveTheme | src/app/layout.tsx:11-30 | the applied theme is never empty |
| Layout.ResolveThemeRule | src/app/layout.tsx:15-29 | a stored, non-empty `state.theme` is applied as it is; a missing or unreadable blob, or a missing or empty `state.theme`, gives `dark` |
| Layout.PersistedThemeRoundTrip | src/app/layout.tsx:15-22 | a theme the store persisted is applied again on the next start |

## Left out

- Rendering, animation, the chart's slice geometry (trigonometry), colours and CSS
  variables: presentation only.
- The backend client and authentication. The user lookup is a parameter (`Option<string>`,
  or `Page.UserLookup` where a throw matters). Each table call is modelled by its effect on
  the in-memory tables.
- The initial data load (`initApp`: session check, the two selects and the loading flag):
  backend I/O with no logic beyond the setters already modelled.
- The rate fetch's network call, `AbortController` and the 8-second timer. Only the
  outcome-to-rate rule is modelled. The source tests `data.rates.RUB` only for truthiness,
  so a missing quote and a falsy one (`0`, `NaN`, `""`, `null`) are "no quote". A truthy
  quote that is not a positive number (a negative number, or a string such as `"abc"`,
  which `setRate` would store as it is) is not modelled: `Rate` is a positive real.
- Persistence: the store's `persist` middleware, `localStorage` and JSON parsing. The
  stored blob is an abstract value (`Layout.StoredBlob`, or `savedLang` in
  `Page.Home.InitLanguage`). An exception thrown while parsing the saved language is
  not modelled.
- The theme script's `setAttribute` call: the model returns the theme to be written.
- Dates: `Date` parsing and the local-time calendar are replaced by an abstract
  `DateStamp` (year, month, day, instant). The week filter's cutoff is "now minus seven
  days of milliseconds". A daylight-saving shift inside that week, and the second clock
  read that computes the cutoff, are not modelled.
- Number formatting (`toLocaleString`, `toFixed`): the model keeps the converted value,
  the sign and the fraction-digit bounds, not the text.
- IEEE-754 floating point. Amounts are `real`. `parseFloat` is abstracted: the parsed
  amount is an input of `AddTransaction.AddFlow.SaveTransaction`, and the NaN of an
  unparsable amount is not modelled. `Number(d.amount) || 0` in the chart is taken as the
  amount itself.
- Translations.Translate: no contract of its own. Any contract that names the two literal
  tables is too costly for the verifier; that every key resolves in both languages is
  stated by `Translations.KeyInEnglish`.
- Translations.Lower: lower-cases ASCII letters only; `toLowerCase` on other Unicode
  letters is not modelled.
- AddTransaction.AddFlow.HandleSaveCat: backend errors on the update, rename, insert
  and refetch calls are not modelled; each call is taken to succeed, and a failed
  refetch would leave the previous lists.
- AddTransaction.AddFlow.DoDeleteCategory: the refetch that follows the delete is not
  awaited in the app; the model applies it in order. Concurrency between handlers and
  React's effect scheduling (including the refetch when the sheet opens or the type
  changes, and the amount field's focus timer) is not modelled.
- Page.Home.DoDeleteTransaction: when the user lookup or the delete call throws, the
  model assumes the backend table did not change.
- The emoji palette is not modelled: `AddTransaction.AddFlow.PickIcon` takes any string.
- The settings dialog, the login page, the modal component (apart from its primary
  button running the handler and then closing the dialog, in `ConfirmDeleteCategory` and
  `Page.Home.ConfirmDeleteTransaction`), the filter buttons, the theme
  provider and the build configuration are not part of this model.
