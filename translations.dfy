/** The two locale tables and the choice of a default language from the browser's. */
module Translations {
  import opened Types
  import opened Store

  /** Russian texts of the home screen. */
  const RuHome: map<string, string> := map[
    "greet" := "Привет",
    "balance" := "Ваш баланс",
    "income" := "Приход",
    "expense" := "Расход",
    "history" := "История",
    "ops" := "операций",
    "empty" := "История пуста 🏜",
    "loading" := "Загрузка...",
    "analytics" := "Аналитика",
    "deleteConfirmTitle" := "Удалить операцию?",
    "deleteConfirmMessage" := "Эта операция будет удалена из истории.",
    "deleteBtn" := "Удалить",
    "cancelBtn" := "Отмена"
  ]

  /** Russian texts of the settings dialog. */
  const RuSettings: map<string, string> := map[
    "settingsTitle" := "Настройки",
    "themeLabel" := "Тема",
    "themeLight" := "Светлая",
    "themeLightDesc" := "С белым фоном",
    "themeDark" := "Темная",
    "themeDarkDesc" := "Премиум внешний вид",
    "languageLabel" := "Язык",
    "infoText" := "✨ Все изменения сохраняются автоматически"
  ]

  /** Russian texts of the filters. */
  const RuFilters: map<string, string> := map[
    "all" := "Все",
    "day" := "День",
    "week" := "Неделя",
    "month" := "Месяц",
    "expenses" := "Расходы",
    "incomes" := "Доходы"
  ]

  /** Russian texts of the add-transaction sheet. */
  const RuAddTransaction: map<string, string> := map[
    "howMuch" := "Сколько?",
    "next" := "Далее",
    "choose" := "Выберите категорию",
    "create" := "Создать",
    "newCat" := "Новая категория",
    "editCat" := "Редактирование",
    "name" := "Название",
    "placeholder" := "Напр: Такси",
    "btnCreate" := "Создать категорию",
    "btnSave" := "Сохранить изменения",
    "confirmDelete" := "Удалить категорию?",
    "confirmDeleteMessage" := "Категория будет удалена. Транзакции с ней останутся.",
    "btnDelete" := "Удалить",
    "btnCancel" := "Отмена",
    "RUB" := "Российский рубль (₽)",
    "USD" := "Доллар США ($)"
  ]

  /** Russian texts of the chart. */
  const RuChart: map<string, string> := map[
    "total" := "Итого",
    "hint" := "Нажмите снова, чтобы вернуть",
    "shareLabel" := "От общей суммы",
    "sumLabel" := "Сумма",
    "detailsLabel" := "Детали",
    "categoryLabel" := "Категория",
    "itemsLabel" := "Позиции"
  ]

  /** Russian texts of other components. */
  const RuOther: map<string, string> := map[
    "logout" := "Выход",
    "settings" := "Настройки",
    "add" := "Добавить",
    "edit" := "Редактировать",
    "delete" := "Удалить",
    "save" := "Сохранить",
    "close" := "Закрыть"
  ]

  /** English texts of the home screen. */
  const EnHome: map<string, string> := map[
    "greet" := "Welcome",
    "balance" := "Total Balance",
    "income" := "Income",
    "expense" := "Expense",
    "history" := "History",
    "ops" := "transactions",
    "empty" := "No history yet 🏜",
    "loading" := "Loading...",
    "analytics" := "Analytics",
    "deleteConfirmTitle" := "Delete transaction?",
    "deleteConfirmMessage" := "It will be removed from your history.",
    "deleteBtn" := "Delete",
    "cancelBtn" := "Cancel"
  ]

  /** English texts of the settings dialog. */
  const EnSettings: map<string, string> := map[
    "settingsTitle" := "Settings",
    "themeLabel" := "Theme",
    "themeLight" := "Light",
    "themeLightDesc" := "Bright appearance",
    "themeDark" := "Dark",
    "themeDarkDesc" := "Premium look",
    "languageLabel" := "Language",
    "infoText" := "✨ All changes are saved automatically"
  ]

  /** English texts of the filters. */
  const EnFilters: map<string, string> := map[
    "all" := "All",
    "day" := "Day",
    "week" := "Week",
    "month" := "Month",
    "expenses" := "Expenses",
    "incomes" := "Incomes"
  ]

  /** English texts of the add-transaction sheet. */
  const EnAddTransaction: map<string, string> := map[
    "howMuch" := "How much?",
    "next" := "Next",
    "choose" := "Choose category",
    "create" := "Create",
    "newCat" := "New category",
    "editCat" := "Edit category",
    "name" := "Name",
    "placeholder" := "e.g. Taxi",
    "btnCreate" := "Create category",
    "btnSave" := "Save changes",
    "confirmDelete" := "Delete category?",
    "confirmDeleteMessage" := "Category will be removed. Transactions will keep their category name.",
    "btnDelete" := "Delete",
    "btnCancel" := "Cancel",
    "RUB" := "Russian Ruble (₽)",
    "USD" := "US Dollar ($)"
  ]

  /** English texts of the chart. */
  const EnChart: map<string, string> := map[
    "total" := "Total",
    "hint" := "Click again to reset",
    "shareLabel" := "Share of total",
    "sumLabel" := "Amount",
    "detailsLabel" := "Details",
    "categoryLabel" := "Category",
    "itemsLabel" := "Items"
  ]

  /** English texts of other components. */
  const EnOther: map<string, string> := map[
    "logout" := "Logout",
    "settings" := "Settings",
    "add" := "Add",
    "edit" := "Edit",
    "delete" := "Delete",
    "save" := "Save",
    "close" := "Close"
  ]

  /** The Russian table: its groups of keys together. */
  const RuTexts: map<string, string> := RuHome + RuSettings + RuFilters + RuAddTransaction + RuChart + RuOther

  /** The English table, grouped the same way. */
  const EnTexts: map<string, string> := EnHome + EnSettings + EnFilters + EnAddTransaction + EnChart + EnOther

  lemma SameKeysHome()
    ensures RuHome.Keys == EnHome.Keys
  {
  }

  lemma SameKeysSettings()
    ensures RuSettings.Keys == EnSettings.Keys
  {
  }

  lemma SameKeysFilters()
    ensures RuFilters.Keys == EnFilters.Keys
  {
  }

  lemma SameKeysAddTransaction()
    ensures RuAddTransaction.Keys == EnAddTransaction.Keys
  {
  }

  lemma SameKeysChart()
    ensures RuChart.Keys == EnChart.Keys
  {
  }

  lemma SameKeysOther()
    ensures RuOther.Keys == EnOther.Keys
  {
  }


  /** Merging tables with the same keys gives tables with the same keys. */
  lemma MergeSameKeys(a: map<string, string>, b: map<string, string>, c: map<string, string>, d: map<string, string>)
    requires a.Keys == c.Keys && b.Keys == d.Keys
    ensures (a + b).Keys == (c + d).Keys
  {
  }

  /** Both tables define the same keys, so every key resolves in either language. */
  lemma SameKeys()
    ensures RuTexts.Keys == EnTexts.Keys
  {
    SameKeysHome();
    SameKeysSettings();
    MergeSameKeys(RuHome, RuSettings, EnHome, EnSettings);
    SameKeysFilters();
    MergeSameKeys(RuHome + RuSettings, RuFilters, EnHome + EnSettings, EnFilters);
    SameKeysAddTransaction();
    MergeSameKeys(RuHome + RuSettings + RuFilters, RuAddTransaction, EnHome + EnSettings + EnFilters, EnAddTransaction);
    SameKeysChart();
    MergeSameKeys(RuHome + RuSettings + RuFilters + RuAddTransaction, RuChart,
                  EnHome + EnSettings + EnFilters + EnAddTransaction, EnChart);
    SameKeysOther();
    MergeSameKeys(RuHome + RuSettings + RuFilters + RuAddTransaction + RuChart, RuOther,
                  EnHome + EnSettings + EnFilters + EnAddTransaction + EnChart, EnOther);
  }

  /** The table for a language. */
  function Table(l: Lang): map<string, string>
  {
    match l
    case Ru => RuTexts
    case En => EnTexts
  }

  /** A translation key is a key of the Russian table. */
  type TranslationKey = k: string | k in RuTexts witness "greet"

  /** Every key of the Russian table is a key of the English one: a lookup never fails. */
  lemma KeyInEnglish(key: string)
    requires key in RuTexts
    ensures key in EnTexts
  {
    SameKeys();
    assert key in RuTexts.Keys;
  }

  /** `translations[lang][key]`. */
  /** `translations[lang][key]`. */
  function Translate(l: Lang, key: TranslationKey): string
  {
    match l
    case Ru => RuTexts[key]
    case En => KeyInEnglish(key); EnTexts[key]
  }

  /** `toLowerCase` on the letters A to Z. */
  function LowerChar(c: char): (r: char)
    ensures !('A' <= r <= 'Z')
    ensures 'A' <= c <= 'Z' ==> r as int == c as int + 32
    ensures !('A' <= c <= 'Z') ==> r == c
  {
    if 'A' <= c <= 'Z' then (c as int + 32) as char else c
  }

  function Lower(s: string): (r: string)
    ensures |r| == |s| && forall i :: 0 <= i < |s| ==> r[i] == LowerChar(s[i])
  {
    seq(|s|, i requires 0 <= i < |s| => LowerChar(s[i]))
  }

  /** `s.split('-')[0]`: everything before the first hyphen. */
  function PrimarySubtag(s: string): (p: string)
    ensures '-' !in p
    ensures p == s || (|p| < |s| && s[..|p| + 1] == p + "-")
  {
    if s == [] then []
    else if s[0] == '-' then []
    else
      var rest := PrimarySubtag(s[1..]);
      assert rest == s[1..] ==> [s[0]] + rest == s;
      [s[0]] + rest
  }

  /** The subtags that select Russian: Russian, Ukrainian, Belarusian. */
  const SlavicSubtags: set<string> := {"ru", "uk", "be"}

  /** `detectBrowserLanguage`. Without a window the answer is English; otherwise the
      lower-cased primary subtag of the browser's language decides, and a missing or
      empty language counts as English. */
  function DetectBrowserLanguage(hasWindow: bool, language: Option<string>): (l: Lang)
    ensures !hasWindow || language.None? ==> l == En
  {
    if !hasWindow then En
    else
      var subtag := if language.None? then "" else Lower(PrimarySubtag(language.value));
      var browserLang := if subtag == "" then "en" else subtag;
      if browserLang in SlavicSubtags then Ru else En
  }

  /** Russian is chosen exactly when there is a window and the language's lower-cased
      primary subtag is one of ru, uk and be; in every other case English. */
  lemma DetectRule(hasWindow: bool, language: Option<string>)
    ensures DetectBrowserLanguage(hasWindow, language) == Ru <==>
      hasWindow && language.Some? && Lower(PrimarySubtag(language.value)) in SlavicSubtags
    ensures !hasWindow || language.None? || language == Some("") ==> DetectBrowserLanguage(hasWindow, language) == En
  {
  }

  lemma {:induction false} PrimaryOfTagged(p: string, rest: string)
    requires '-' !in p
    ensures PrimarySubtag(p + "-" + rest) == p
    decreases |p|
  {
    if p == [] {
      assert (p + "-" + rest)[0] == '-';
    } else {
      assert (p + "-" + rest)[1..] == p[1..] + "-" + rest;
      PrimaryOfTagged(p[1..], rest);
      assert [p[0]] + p[1..] == p;
    }
  }

  /** Only the part before the first hyphen is inspected: the region and anything after
      it do not change the answer. */
  lemma OnlyPrimarySubtagMatters(hasWindow: bool, p: string, rest: string)
    requires '-' !in p
    ensures DetectBrowserLanguage(hasWindow, Some(p + "-" + rest)) == DetectBrowserLanguage(hasWindow, Some(p))
  {
    PrimaryOfTagged(p, rest);
    assert PrimarySubtag(p) == p by {
      PrimaryOfHyphenless(p);
    }
  }

  lemma {:induction false} PrimaryOfHyphenless(p: string)
    requires '-' !in p
    ensures PrimarySubtag(p) == p
    decreases |p|
  {
    if p != [] {
      assert '-' !in p[1..] by {
        forall i | 0 <= i < |p[1..]| ensures p[1..][i] != '-' { assert p[1..][i] == p[i + 1]; }
      }
      PrimaryOfHyphenless(p[1..]);
      assert [p[0]] + p[1..] == p;
    }
  }

  lemma {:induction false} LowerCommutesWithPrimary(s: string)
    ensures PrimarySubtag(Lower(s)) == Lower(PrimarySubtag(s))
    decreases |s|
  {
    if s != [] {
      assert Lower(s)[1..] == Lower(s[1..]);
      LowerCommutesWithPrimary(s[1..]);
      if s[0] != '-' {
        assert Lower([s[0]] + PrimarySubtag(s[1..])) == [LowerChar(s[0])] + Lower(PrimarySubtag(s[1..]));
      }
    }
  }

  /** Letter case does not matter: the language is lower-cased before the comparison. */
  lemma CaseDoesNotMatter(hasWindow: bool, s: string)
    ensures DetectBrowserLanguage(hasWindow, Some(s)) == DetectBrowserLanguage(hasWindow, Some(Lower(s)))
  {
    LowerCommutesWithPrimary(s);
    var p := PrimarySubtag(s);
    assert Lower(Lower(p)) == Lower(p);
  }

  /** Browsers' languages that give Russian. */
  lemma DetectExamplesRussian()
    ensures DetectBrowserLanguage(true, Some("uk-UA")) == Ru
    ensures DetectBrowserLanguage(true, Some("BE")) == Ru
  {
    PrimaryOfTagged("uk", "UA");
    assert "uk-UA" == "uk" + "-" + "UA";
    assert Lower("uk") == "uk";
    PrimaryOfHyphenless("BE");
    assert Lower("BE") == "be";
  }

  /** Browsers' languages that give English, and a Russian one without a window. */
  lemma DetectExamplesEnglish()
    ensures DetectBrowserLanguage(true, Some("en-US")) == En
    ensures DetectBrowserLanguage(true, Some("kk-KZ")) == En
    ensures DetectBrowserLanguage(false, Some("ru-RU")) == En
  {
    PrimaryOfTagged("en", "US");
    assert "en-US" == "en" + "-" + "US";
    assert Lower("en") == "en";
    PrimaryOfTagged("kk", "KZ");
    assert "kk-KZ" == "kk" + "-" + "KZ";
    assert Lower("kk") == "kk";
  }
}
