/** The category chart: transactions of the selected type grouped by category name,
    the groups in descending order of their sums, the total and each group's share,
    and the selection the user toggles by clicking a slice. */
module Chart {
  import opened Types
  import Arith

  /** One slice: a category name and the sum of its amounts. */
  datatype Group = Group(name: string, value: real)

  /** The name a transaction without a category is shown under. */
  const Dash: string := "—"

  function Abs(x: real): (r: real)
    ensures r >= 0.0 && (r == x || r == -x)
  {
    if x < 0.0 then -x else x
  }

  /** Only transactions of the selected type with a non-zero amount take part; each
      contributes its absolute amount, which is then positive. */
  predicate Participates(d: Transaction, view: TxType)
  {
    d.kind == view && d.amount != 0.0
  }

  /** `grouped.find(i => i.name === name)`: the first group with that name. */
  function FindGroup(groups: seq<Group>, name: string): (k: Option<nat>)
    ensures k.Some? ==> k.value < |groups| && groups[k.value].name == name
    ensures k.Some? ==> forall j :: 0 <= j < k.value ==> groups[j].name != name
    ensures k.None? ==> forall j :: 0 <= j < |groups| ==> groups[j].name != name
  {
    if groups == [] then None
    else if groups[0].name == name then Some(0)
    else match FindGroup(groups[1..], name)
      case None => None
      case Some(j) => Some(j + 1)
  }

  /** One step of the grouping loop: add the amount to the group found under the raw
      category name, or push a new group named after the category, `—` when it is empty. */
  function AddToGroups(groups: seq<Group>, d: Transaction): (r: seq<Group>)
    ensures r != [] && |groups| <= |r| <= |groups| + 1
    ensures forall k :: 0 <= k < |groups| ==> r[k].name == groups[k].name
  {
    match FindGroup(groups, d.category)
    case Some(k) => groups[k := groups[k].(value := groups[k].value + Abs(d.amount))]
    case None => groups + [Group(if d.category == "" then Dash else d.category, Abs(d.amount))]
  }

  /** The groups, in order of first appearance, after the loop has seen all of `data`. */
  function Grouped(data: seq<Transaction>, view: TxType): (r: seq<Group>)
    ensures |r| <= |data|
    decreases |data|
  {
    if |data| == 0 then []
    else
      var before := Grouped(data[..|data| - 1], view);
      var d := data[|data| - 1];
      if Participates(d, view) then AddToGroups(before, d) else before
  }

  /** `b.value - a.value` as a stable sort's comparator: `g` goes before the first
      element whose value is not larger than its own. */
  function InsertDesc(g: Group, sorted: seq<Group>): (r: seq<Group>)
    ensures |r| == |sorted| + 1
  {
    if sorted == [] then [g]
    else if g.value >= sorted[0].value then [g] + sorted
    else [sorted[0]] + InsertDesc(g, sorted[1..])
  }

  /** `grouped.sort((a, b) => b.value - a.value)`, a stable sort. */
  function SortDesc(s: seq<Group>): (r: seq<Group>)
    ensures |r| == |s|
  {
    if s == [] then [] else InsertDesc(s[0], SortDesc(s[1..]))
  }

  predicate SortedDesc(s: seq<Group>)
  {
    forall i, j :: 0 <= i < j < |s| ==> s[i].value >= s[j].value
  }

  /** The groups whose value is exactly `v`, in order. */
  function WithValue(s: seq<Group>, v: real): seq<Group>
  {
    if s == [] then [] else (if s[0].value == v then [s[0]] else []) + WithValue(s[1..], v)
  }

  function Sum(s: seq<Group>): real
  {
    if s == [] then 0.0 else s[0].value + Sum(s[1..])
  }

  /** `chartData`: the groups of the participating transactions, sorted. */
  method BuildChartData(data: seq<Transaction>, view: TxType) returns (chart: seq<Group>)
    ensures chart == SortDesc(Grouped(data, view))
  {
    if |data| == 0 {
      return [];
    }
    var grouped: seq<Group> := [];
    var i := 0;
    while i < |data|
      invariant 0 <= i <= |data|
      invariant grouped == Grouped(data[..i], view)
    {
      var d := data[i];
      if d.kind == view && d.amount != 0.0 {
        var amount := Abs(d.amount);
        if amount > 0.0 {
          var found := FindGroup(grouped, d.category);
          if found.Some? {
            var k := found.value;
            grouped := grouped[k := grouped[k].(value := grouped[k].value + amount)];
          } else {
            grouped := grouped + [Group(if d.category == "" then Dash else d.category, amount)];
          }
        }
      }
      assert data[..i + 1][..i] == data[..i];
      i := i + 1;
    }
    assert data[..|data|] == data;
    chart := SortDesc(grouped);
  }

  // ---------------------------------------------------------------------------
  // The sort: descending, a permutation, stable

  lemma {:induction false} InsertDescSorted(g: Group, s: seq<Group>)
    requires SortedDesc(s)
    ensures SortedDesc(InsertDesc(g, s))
    ensures InsertDesc(g, s) != [] && (InsertDesc(g, s)[0] == g || (s != [] && InsertDesc(g, s)[0] == s[0]))
    decreases |s|
  {
    if s != [] && g.value < s[0].value {
      InsertDescSorted(g, s[1..]);
      var rest := InsertDesc(g, s[1..]);
      assert forall j :: 0 <= j < |rest| ==> s[0].value >= rest[j].value by {
        InsertDescMembers(g, s[1..]);
        forall j | 0 <= j < |rest| ensures s[0].value >= rest[j].value {
          assert rest[j] in rest;
          if rest[j] != g {
            var m :| 0 <= m < |s[1..]| && s[1..][m] == rest[j];
            assert s[m + 1] == rest[j];
          }
        }
      }
    }
  }

  lemma {:induction false} InsertDescMembers(g: Group, s: seq<Group>)
    ensures multiset(InsertDesc(g, s)) == multiset{g} + multiset(s)
    ensures forall x :: x in InsertDesc(g, s) <==> x == g || x in s
    decreases |s|
  {
    if s != [] && g.value < s[0].value {
      InsertDescMembers(g, s[1..]);
      assert s == [s[0]] + s[1..];
    }
  }

  /** The chart lists its groups in non-increasing order of value. */
  lemma {:induction false} SortDescIsSorted(s: seq<Group>)
    ensures SortedDesc(SortDesc(s))
    decreases |s|
  {
    if s != [] {
      SortDescIsSorted(s[1..]);
      InsertDescSorted(s[0], SortDesc(s[1..]));
    }
  }

  /** The sort rearranges the groups and loses or adds none. */
  lemma {:induction false} SortDescPermutes(s: seq<Group>)
    ensures multiset(SortDesc(s)) == multiset(s)
    decreases |s|
  {
    if s != [] {
      SortDescPermutes(s[1..]);
      InsertDescMembers(s[0], SortDesc(s[1..]));
      assert s == [s[0]] + s[1..];
    }
  }

  lemma WithValueCons(x: Group, s: seq<Group>, v: real)
    ensures WithValue([x] + s, v) == (if x.value == v then [x] else []) + WithValue(s, v)
  {
    assert ([x] + s)[0] == x;
    assert ([x] + s)[1..] == s;
  }

  lemma {:induction false} InsertDescWithValue(g: Group, s: seq<Group>, v: real)
    ensures WithValue(InsertDesc(g, s), v) == (if g.value == v then [g] else []) + WithValue(s, v)
    decreases |s|
  {
    if s == [] {
      WithValueCons(g, [], v);
    } else if g.value >= s[0].value {
      WithValueCons(g, s, v);
    } else {
      var rest := InsertDesc(g, s[1..]);
      assert InsertDesc(g, s) == [s[0]] + rest;
      InsertDescWithValue(g, s[1..], v);
      WithValueCons(s[0], rest, v);
      assert s == [s[0]] + s[1..];
      WithValueCons(s[0], s[1..], v);
      if g.value == v {
        assert s[0].value != v;
      }
    }
  }

  /** Stability: the groups of any one value keep their relative order, so among equal
      sums the group that appeared first stays first. */
  lemma {:induction false} SortDescIsStable(s: seq<Group>, v: real)
    ensures WithValue(SortDesc(s), v) == WithValue(s, v)
    decreases |s|
  {
    if s != [] {
      SortDescIsStable(s[1..], v);
      InsertDescWithValue(s[0], SortDesc(s[1..]), v);
      WithValueCons(s[0], s[1..], v);
      assert s == [s[0]] + s[1..];
    }
  }

  lemma {:induction false} InsertDescSum(g: Group, s: seq<Group>)
    ensures Sum(InsertDesc(g, s)) == g.value + Sum(s)
    decreases |s|
  {
    if s != [] && g.value < s[0].value {
      InsertDescSum(g, s[1..]);
    }
  }

  lemma {:induction false} SortDescSum(s: seq<Group>)
    ensures Sum(SortDesc(s)) == Sum(s)
    decreases |s|
  {
    if s != [] {
      SortDescSum(s[1..]);
      InsertDescSum(s[0], SortDesc(s[1..]));
    }
  }

  // ---------------------------------------------------------------------------
  // The grouping: totals, one group per name, the value of each group

  /** The sum of absolute amounts over the participating transactions. */
  function ParticipatingTotal(data: seq<Transaction>, view: TxType): (r: real)
    ensures r >= 0.0
    decreases |data|
  {
    if |data| == 0 then 0.0
    else
      var d := data[|data| - 1];
      ParticipatingTotal(data[..|data| - 1], view) + (if Participates(d, view) then Abs(d.amount) else 0.0)
  }

  /** The sum of absolute amounts over the participating transactions of one category. */
  function CategoryTotal(data: seq<Transaction>, view: TxType, c: string): (r: real)
    ensures 0.0 <= r <= ParticipatingTotal(data, view)
    decreases |data|
  {
    if |data| == 0 then 0.0
    else
      var d := data[|data| - 1];
      CategoryTotal(data[..|data| - 1], view, c)
      + (if Participates(d, view) && d.category == c then Abs(d.amount) else 0.0)
  }

  /** The chart is empty exactly when no transaction takes part. */
  lemma {:induction false} GroupedEmpty(data: seq<Transaction>, view: TxType)
    ensures Grouped(data, view) == [] <==> forall d :: d in data ==> !Participates(d, view)
    decreases |data|
  {
    if |data| > 0 {
      var n := |data| - 1;
      GroupedEmpty(data[..n], view);
      assert data == data[..n] + [data[n]];
      forall d | d in data[..n]
        ensures d in data
      {
      }
    }
  }

  predicate HasGroupNamed(s: seq<Group>, c: string)
  {
    exists k :: 0 <= k < |s| && s[k].name == c
  }

  /** Some participating transaction has category `c`. */
  predicate Occurs(data: seq<Transaction>, view: TxType, c: string)
  {
    exists i :: 0 <= i < |data| && Participates(data[i], view) && data[i].category == c
  }

  lemma {:induction false} SumAppend(s: seq<Group>, g: Group)
    ensures Sum(s + [g]) == Sum(s) + g.value
    decreases |s|
  {
    if s != [] {
      SumAppend(s[1..], g);
      assert (s + [g])[1..] == s[1..] + [g];
    }
  }

  lemma {:induction false} SumAddAt(s: seq<Group>, k: nat, a: real)
    requires k < |s|
    ensures Sum(s[k := s[k].(value := s[k].value + a)]) == Sum(s) + a
    decreases |s|
  {
    if k > 0 {
      SumAddAt(s[1..], k - 1, a);
      assert s[k := s[k].(value := s[k].value + a)][1..] == s[1..][k - 1 := s[k].(value := s[k].value + a)];
    }
  }

  /** `total`, the sum of the group values, is the sum of the absolute amounts of the
      participating transactions. */
  lemma {:induction false} GroupedTotal(data: seq<Transaction>, view: TxType)
    ensures Sum(Grouped(data, view)) == ParticipatingTotal(data, view)
    decreases |data|
  {
    if |data| > 0 {
      var before := Grouped(data[..|data| - 1], view);
      var d := data[|data| - 1];
      GroupedTotal(data[..|data| - 1], view);
      if Participates(d, view) {
        match FindGroup(before, d.category)
        case Some(k) =>
          SumAddAt(before, k, Abs(d.amount));
        case None =>
          SumAppend(before, Group(if d.category == "" then Dash else d.category, Abs(d.amount)));
      }
    }
  }

  /** No group has an empty name, every value is positive, and two groups share a name
      only when that name is `—`. */
  predicate GroupsWellFormed(s: seq<Group>)
  {
    (forall k :: 0 <= k < |s| ==> s[k].name != "" && s[k].value > 0.0)
    && (forall i, j :: 0 <= i < j < |s| && s[i].name == s[j].name ==> s[i].name == Dash)
  }

  lemma {:induction false} GroupedWellFormed(data: seq<Transaction>, view: TxType)
    ensures GroupsWellFormed(Grouped(data, view))
    decreases |data|
  {
    if |data| > 0 {
      GroupedWellFormed(data[..|data| - 1], view);
    }
  }

  /** A transaction without a category never finds a group (no group has an empty name),
      so each one opens a new `—` group. */
  lemma EmptyCategoryOpensNewGroup(data: seq<Transaction>, d: Transaction, view: TxType)
    requires Participates(d, view) && d.category == ""
    ensures Grouped(data + [d], view) == Grouped(data, view) + [Group(Dash, Abs(d.amount))]
  {
    GroupedWellFormed(data, view);
    assert (data + [d])[..|data + [d]| - 1] == data;
    var before := Grouped(data, view);
    assert FindGroup(before, "").None?;
  }

  lemma OccursStep(data: seq<Transaction>, view: TxType, c: string)
    requires |data| > 0
    ensures Occurs(data, view, c) <==>
      Occurs(data[..|data| - 1], view, c) || (Participates(data[|data| - 1], view) && data[|data| - 1].category == c)
  {
    var prefix := data[..|data| - 1];
    if Occurs(prefix, view, c) {
      var i :| 0 <= i < |prefix| && Participates(prefix[i], view) && prefix[i].category == c;
      assert data[i] == prefix[i];
    }
    if Occurs(data, view, c) {
      var i :| 0 <= i < |data| && Participates(data[i], view) && data[i].category == c;
      if i < |data| - 1 {
        assert prefix[i] == data[i];
      }
    }
  }

  /** Adding to one group's value keeps every name in place. */
  lemma HasAfterAdd(s: seq<Group>, k: nat, a: real, c: string)
    requires k < |s|
    ensures HasGroupNamed(s[k := s[k].(value := s[k].value + a)], c) <==> HasGroupNamed(s, c)
  {
    var t := s[k := s[k].(value := s[k].value + a)];
    if HasGroupNamed(s, c) {
      var m :| 0 <= m < |s| && s[m].name == c;
      assert t[m].name == c;
    }
    if HasGroupNamed(t, c) {
      var m :| 0 <= m < |t| && t[m].name == c;
      assert s[m].name == c;
    }
  }

  /** Pushing a group adds exactly its name. */
  lemma HasAfterPush(s: seq<Group>, x: Group, c: string)
    ensures HasGroupNamed(s + [x], c) <==> HasGroupNamed(s, c) || x.name == c
  {
    var t := s + [x];
    if HasGroupNamed(s, c) {
      var m :| 0 <= m < |s| && s[m].name == c;
      assert t[m].name == c;
    }
    if x.name == c {
      assert t[|s|].name == c;
    }
  }

  /** For a category name other than the empty one and `—`, a group of that name exists
      exactly when some participating transaction has that category. */
  lemma {:induction false} GroupedHasName(data: seq<Transaction>, view: TxType, c: string)
    requires c != "" && c != Dash
    ensures HasGroupNamed(Grouped(data, view), c) <==> Occurs(data, view, c)
    decreases |data|
  {
    if |data| > 0 {
      var prefix := data[..|data| - 1];
      var before := Grouped(prefix, view);
      var d := data[|data| - 1];
      GroupedHasName(prefix, view, c);
      OccursStep(data, view, c);
      if Participates(d, view) {
        match FindGroup(before, d.category)
        case Some(k) =>
          HasAfterAdd(before, k, Abs(d.amount), c);
        case None =>
          HasAfterPush(before, Group(if d.category == "" then Dash else d.category, Abs(d.amount)), c);
      }
    }
  }

  /** A group named `c` (not empty, not `—`) carries the sum of that category's absolute
      amounts, and no other group has that name. */
  lemma {:induction false} GroupedValue(data: seq<Transaction>, view: TxType, c: string, k: nat)
    requires c != "" && c != Dash
    requires k < |Grouped(data, view)| && Grouped(data, view)[k].name == c
    ensures Grouped(data, view)[k].value == CategoryTotal(data, view, c)
    ensures forall j :: 0 <= j < |Grouped(data, view)| && j != k ==> Grouped(data, view)[j].name != c
    decreases |data|
  {
    GroupedWellFormed(data, view);
    var g := Grouped(data, view);
    var prefix := data[..|data| - 1];
    var before := Grouped(prefix, view);
    var d := data[|data| - 1];
    if Participates(d, view) {
      match FindGroup(before, d.category)
      case Some(f) =>
        assert g[k].name == before[k].name;
        GroupedValue(prefix, view, c, k);
        if d.category == c {
          assert f == k;
        }
      case None =>
        if k < |before| {
          assert g[k] == before[k];
          GroupedValue(prefix, view, c, k);
        } else {
          GroupedHasName(prefix, view, c);
          assert !HasGroupNamed(before, c);
          NoOccurrenceNoTotal(prefix, view, c);
        }
    } else {
      GroupedValue(prefix, view, c, k);
    }
  }

  lemma {:induction false} NoOccurrenceNoTotal(data: seq<Transaction>, view: TxType, c: string)
    requires !Occurs(data, view, c)
    ensures CategoryTotal(data, view, c) == 0.0
    decreases |data|
  {
    if |data| > 0 {
      OccursStep(data, view, c);
      NoOccurrenceNoTotal(data[..|data| - 1], view, c);
    }
  }

  /** The chart itself (grouped, then sorted) keeps those facts: its total is the sum of
      the participating amounts, and a group named `c` carries that category's sum. */
  lemma ChartTotalAndValues(data: seq<Transaction>, view: TxType, c: string, x: Group)
    requires c != "" && c != Dash
    requires x in SortDesc(Grouped(data, view)) && x.name == c
    ensures Sum(SortDesc(Grouped(data, view))) == ParticipatingTotal(data, view)
    ensures x.value == CategoryTotal(data, view, c) && Occurs(data, view, c)
  {
    var g := Grouped(data, view);
    SortDescSum(g);
    GroupedTotal(data, view);
    SortDescPermutes(g);
    assert x in multiset(g);
    var k :| 0 <= k < |g| && g[k] == x;
    GroupedValue(data, view, c, k);
    GroupedHasName(data, view, c);
  }

  /** The example of three expenses, A 30, B 10 and A 20: two groups, A with 50 first. */
  lemma GroupingExampleSteps(a1: Transaction, b: Transaction, a2: Transaction)
    requires a1.kind == b.kind == a2.kind == Expense
    requires a1.category == a2.category == "A" && b.category == "B"
    requires a1.amount == 30.0 && b.amount == 10.0 && a2.amount == 20.0
    ensures Grouped([a1, b, a2], Expense) == [Group("A", 50.0), Group("B", 10.0)]
  {
    var ga := [Group("A", 30.0)];
    var gab := [Group("A", 30.0), Group("B", 10.0)];
    assert [a1][..0] == [];
    assert Grouped([a1], Expense) == AddToGroups([], a1) == ga;
    assert [a1, b][..1] == [a1];
    assert FindGroup(ga, "B") == None;
    assert Grouped([a1, b], Expense) == AddToGroups(ga, b) == gab;
    assert [a1, b, a2][..2] == [a1, b];
    assert FindGroup(gab, "A") == Some(0);
  }

  lemma GroupingExample(a1: Transaction, b: Transaction, a2: Transaction)
    requires a1.kind == b.kind == a2.kind == Expense
    requires a1.category == a2.category == "A" && b.category == "B"
    requires a1.amount == 30.0 && b.amount == 10.0 && a2.amount == 20.0
    ensures SortDesc(Grouped([a1, b, a2], Expense)) == [Group("A", 50.0), Group("B", 10.0)]
  {
    GroupingExampleSteps(a1, b, a2);
    var result := [Group("A", 50.0), Group("B", 10.0)];
    assert result[1..] == [Group("B", 10.0)];
    assert SortDesc(result[1..]) == [Group("B", 10.0)];
  }

  // ---------------------------------------------------------------------------
  // Totals, shares and the selection

  /** `displayTotal`, computed only once the rate has passed the guard. */
  function DisplayTotal(total: real, currencySign: string, rate: real): (shown: real)
    requires rate > 0.0
    ensures total == 0.0 ==> shown == 0.0
    ensures total != 0.0 && currencySign == "₽" ==> shown == total
    ensures total != 0.0 && currencySign != "₽" ==> shown * rate == total
  {
    if total == 0.0 then 0.0
    else if currencySign == "₽" then total
    else total / rate
  }

  /** A group's share of the total, in percent. */
  function Share(value: real, total: real): (p: real)
    ensures total > 0.0 ==> p * total == value * 100.0
    ensures total <= 0.0 ==> p == 0.0
  {
    if total > 0.0 then value / total * 100.0 else 0.0
  }

  function SumShares(s: seq<Group>, total: real): real
  {
    if s == [] then 0.0 else Share(s[0].value, total) + SumShares(s[1..], total)
  }

  lemma {:induction false} SumSharesScales(s: seq<Group>, total: real)
    requires total > 0.0
    ensures SumShares(s, total) * total == Sum(s) * 100.0
    decreases |s|
  {
    if s != [] {
      SumSharesScales(s[1..], total);
      calc {
        SumShares(s, total) * total;
        Share(s[0].value, total) * total + SumShares(s[1..], total) * total;
        s[0].value * 100.0 + Sum(s[1..]) * 100.0;
      }
    }
  }

  /** The shares of all groups add up to one hundred percent. */
  lemma SharesAddUp(s: seq<Group>)
    requires Sum(s) > 0.0
    ensures SumShares(s, Sum(s)) == 100.0
  {
    var t := Sum(s);
    SumSharesScales(s, t);
    Arith.CancelPositive(SumShares(s, t), 100.0, t);
  }

  /** Every group of the chart has a share between zero and one hundred percent. */
  lemma ShareBounds(data: seq<Transaction>, view: TxType, x: Group)
    requires x in SortDesc(Grouped(data, view))
    ensures var total := Sum(SortDesc(Grouped(data, view)));
      total > 0.0 && 0.0 < Share(x.value, total) <= 100.0
  {
    var g := Grouped(data, view);
    var chart := SortDesc(g);
    SortDescPermutes(g);
    GroupedWellFormed(data, view);
    forall m | 0 <= m < |chart| ensures chart[m].value > 0.0 {
      assert chart[m] in multiset(g);
      var i :| 0 <= i < |g| && g[i] == chart[m];
    }
    var k :| 0 <= k < |chart| && chart[k] == x;
    PositiveGroupsBound(chart, k);
    var total := Sum(chart);
    Arith.FractionAtMostOne(x.value, total);
  }

  lemma {:induction false} PositiveGroupsBound(s: seq<Group>, k: nat)
    requires k < |s| && forall m :: 0 <= m < |s| ==> s[m].value > 0.0
    ensures 0.0 < s[k].value <= Sum(s)
    decreases |s|
  {
    if k > 0 {
      PositiveGroupsBound(s[1..], k - 1);
    } else if |s| > 1 {
      PositiveGroupsBound(s[1..], 0);
    }
  }

  /** `isSelected`: a selection counts only while it indexes an existing group. */
  predicate IsSelected(selected: Option<nat>, count: nat)
  {
    selected.Some? && selected.value < count
  }

  /** What the chart renders, before layout and formatting. */
  datatype Summary = Summary(
    groups: seq<Group>,
    total: real,
    displayTotal: real,
    selectedItem: Option<Group>,
    selectedShare: real)

  /** The chart's own state: the type it shows and the selected slice. */
  class ChartState {
    var view: TxType
    var selected: Option<nat>

    constructor ()
      ensures view == Expense && selected == None
    {
      view := Expense;
      selected := None;
    }

    /** Clicking the selected slice clears the selection; clicking another selects it. */
    method HandleClick(index: nat)
      modifies this
      ensures selected == if old(selected) == Some(index) then None else Some(index)
      ensures view == old(view)
    {
      if selected == Some(index) {
        selected := None;
      } else {
        selected := Some(index);
      }
    }

    /** The details panel's close button clears the selection, whatever it was. */
    method CloseDetails()
      modifies this
      ensures selected == None
      ensures view == old(view)
    {
      selected := None;
    }

    /** Switching the type clears the selection; choosing the type already shown keeps it. */
    method SetView(v: TxType)
      modifies this
      ensures view == v
      ensures selected == if v != old(view) then None else old(selected)
    {
      if v != view {
        view := v;
        selected := None;
      }
    }

    /** The component: nothing when the rate is not positive, otherwise the groups, the
        total, the displayed total and the selected group with its share. */
    method Render(data: seq<Transaction>, currencySign: string, rate: real) returns (out: Option<Summary>)
      ensures rate <= 0.0 <==> out.None?
      ensures out.Some? ==> out.value.groups == SortDesc(Grouped(data, view))
      ensures out.Some? ==> out.value.total == ParticipatingTotal(data, view)
      ensures out.Some? ==> out.value.displayTotal == DisplayTotal(out.value.total, currencySign, rate)
      ensures out.Some? ==> (out.value.selectedItem.Some? <==> IsSelected(selected, |out.value.groups|))
      ensures out.Some? && out.value.selectedItem.Some? ==>
        out.value.selectedItem.value == out.value.groups[selected.value]
        && out.value.selectedShare == Share(out.value.selectedItem.value.value, out.value.total)
    {
      if rate <= 0.0 {
        return None;
      }
      var chart := BuildChartData(data, view);
      var total := Sum(chart);
      GroupedTotal(data, view);
      SortDescSum(Grouped(data, view));
      var item: Option<Group> := None;
      var share := 0.0;
      if IsSelected(selected, |chart|) {
        item := Some(chart[selected.value]);
        share := Share(chart[selected.value].value, total);
      }
      out := Some(Summary(chart, total, DisplayTotal(total, currencySign, rate), item, share));
    }
  }
}
