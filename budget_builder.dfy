/**
 * The budget ledger screen (`components/BudgetBuilder.tsx`): the totals,
 * the per-category expense grouping shown in the pie chart, the bar chart,
 * and the add-entry handler over the component's `entries` state and the
 * service's `MOCK_BUDGET` array.
 */
module BudgetBuilder {
  import opened Types
  import opened BudgetService

  /** `reduce((sum, e) => sum + e.amount, 0)`. */
  function SumAmounts(s: seq<BudgetEntry>): real
  {
    if s == [] then 0.0 else SumAmounts(s[..|s| - 1]) + s[|s| - 1].amount
  }

  /** `filter((e) => e.type === kind)`. */
  function OfKind(s: seq<BudgetEntry>, kind: EntryType): (r: seq<BudgetEntry>)
    ensures |r| <= |s|
    ensures forall k :: 0 <= k < |r| ==> r[k].kind == kind
    ensures forall e :: e in r <==> e in s && e.kind == kind
  {
    if s == [] then []
    else
      assert s == s[..|s| - 1] + [s[|s| - 1]];
      var rest := OfKind(s[..|s| - 1], kind);
      if s[|s| - 1].kind == kind then rest + [s[|s| - 1]] else rest
  }

  function TotalIncome(s: seq<BudgetEntry>): real
  {
    SumAmounts(OfKind(s, Income))
  }

  function TotalExpenses(s: seq<BudgetEntry>): real
  {
    SumAmounts(OfKind(s, Expense))
  }

  function NetSavings(s: seq<BudgetEntry>): real
  {
    TotalIncome(s) - TotalExpenses(s)
  }

  lemma SumAmountsAppend(s: seq<BudgetEntry>, e: BudgetEntry)
    ensures SumAmounts(s + [e]) == SumAmounts(s) + e.amount
  {
    assert (s + [e])[..|s|] == s;
  }

  /** Adding an entry moves exactly one of the totals, by its amount. */
  lemma TotalsAfterAdd(s: seq<BudgetEntry>, e: BudgetEntry)
    ensures TotalIncome(s + [e]) == TotalIncome(s) + (if e.kind == Income then e.amount else 0.0)
    ensures TotalExpenses(s + [e]) == TotalExpenses(s) + (if e.kind == Expense then e.amount else 0.0)
    ensures NetSavings(s + [e]) == NetSavings(s) + (if e.kind == Income then e.amount else -e.amount)
  {
    assert (s + [e])[..|s|] == s;
    SumAmountsAppend(OfKind(s, e.kind), e);
  }

  /** Every entry is income or expense, so the two totals add up to the sum of all amounts. */
  lemma {:induction false} TotalsPartitionEntries(s: seq<BudgetEntry>)
    ensures TotalIncome(s) + TotalExpenses(s) == SumAmounts(s)
    decreases |s|
  {
    if s != [] {
      var init, e := s[..|s| - 1], s[|s| - 1];
      assert init + [e] == s;
      TotalsPartitionEntries(init);
      PartitionStep(init, e);
    }
  }

  lemma PartitionStep(init: seq<BudgetEntry>, e: BudgetEntry)
    requires TotalIncome(init) + TotalExpenses(init) == SumAmounts(init)
    ensures TotalIncome(init + [e]) + TotalExpenses(init + [e]) == SumAmounts(init + [e])
  {
    TotalsAfterAdd(init, e);
    SumAmountsAppend(init, e);
  }

  predicate IsExpenseOf(e: BudgetEntry, category: string)
  {
    e.kind == Expense && e.category == category
  }

  /** The total of the expense entries of one category. */
  function CategoryTotal(s: seq<BudgetEntry>, category: string): real
  {
    if s == [] then 0.0
    else CategoryTotal(s[..|s| - 1], category) + (if IsExpenseOf(s[|s| - 1], category) then s[|s| - 1].amount else 0.0)
  }

  /**
   * The keys of the `expenseCategories` object in enumeration order: each
   * expense category once, in the order of its first entry.
   */
  function CategoryNames(s: seq<BudgetEntry>): seq<string>
  {
    if s == [] then []
    else
      var names := CategoryNames(s[..|s| - 1]);
      var e := s[|s| - 1];
      if e.kind == Expense && e.category !in names then names + [e.category] else names
  }

  predicate NoDuplicates(names: seq<string>)
  {
    forall i, j :: 0 <= i < j < |names| ==> names[i] != names[j]
  }

  /**
   * The keys are distinct, and a name is a key exactly when some expense
   * entry carries it; income entries contribute no key.
   */
  lemma {:induction false} CategoryNamesFacts(s: seq<BudgetEntry>)
    ensures NoDuplicates(CategoryNames(s))
    ensures forall c :: c in CategoryNames(s) <==> exists i :: 0 <= i < |s| && IsExpenseOf(s[i], c)
    decreases |s|
  {
    if s != [] {
      var init := s[..|s| - 1];
      CategoryNamesFacts(init);
      forall c
        ensures c in CategoryNames(s) <==> exists i :: 0 <= i < |s| && IsExpenseOf(s[i], c)
      {
        if c in CategoryNames(init) {
          var i :| 0 <= i < |init| && IsExpenseOf(init[i], c);
          assert s[i] == init[i];
        }
        if exists i :: 0 <= i < |s| && IsExpenseOf(s[i], c) {
          var i :| 0 <= i < |s| && IsExpenseOf(s[i], c);
          if i < |init| {
            assert IsExpenseOf(init[i], c);
          }
        }
      }
    }
  }

  /** A category without a key has total 0. */
  lemma {:induction false} CategoryTotalOfMissing(s: seq<BudgetEntry>, c: string)
    requires c !in CategoryNames(s)
    ensures CategoryTotal(s, c) == 0.0
    decreases |s|
  {
    if s != [] {
      CategoryTotalOfMissing(s[..|s| - 1], c);
    }
  }

  lemma CategoryTotalAppend(s: seq<BudgetEntry>, e: BudgetEntry, c: string)
    ensures CategoryTotal(s + [e], c) == CategoryTotal(s, c) + (if IsExpenseOf(e, c) then e.amount else 0.0)
    ensures CategoryNames(s + [e]) == if e.kind == Expense && e.category !in CategoryNames(s) then CategoryNames(s) + [e.category] else CategoryNames(s)
  {
    assert (s + [e])[..|s|] == s;
  }

  /** The sum of the category totals over a list of names. */
  function SumOver(names: seq<string>, s: seq<BudgetEntry>): real
  {
    if names == [] then 0.0 else SumOver(names[..|names| - 1], s) + CategoryTotal(s, names[|names| - 1])
  }

  lemma {:induction false} SumOverAddEntry(names: seq<string>, s: seq<BudgetEntry>, e: BudgetEntry)
    requires NoDuplicates(names)
    ensures SumOver(names, s + [e]) == SumOver(names, s) + (if e.kind == Expense && e.category in names then e.amount else 0.0)
    decreases |names|
  {
    if names != [] {
      var init := names[..|names| - 1];
      var last := names[|names| - 1];
      assert NoDuplicates(init);
      SumOverAddEntry(init, s, e);
      CategoryTotalAppend(s, e, last);
      assert last !in init;
      assert e.category in names <==> e.category in init || e.category == last;
    }
  }

  lemma SumOverAddName(names: seq<string>, c: string, s: seq<BudgetEntry>)
    ensures SumOver(names + [c], s) == SumOver(names, s) + CategoryTotal(s, c)
  {
    assert (names + [c])[..|names|] == names;
  }

  /** The per-category expense totals add up to `totalExpenses`. */
  lemma {:induction false} CategoriesSumToExpenses(s: seq<BudgetEntry>)
    ensures SumOver(CategoryNames(s), s) == TotalExpenses(s)
    decreases |s|
  {
    if s != [] {
      var init, e := s[..|s| - 1], s[|s| - 1];
      assert init + [e] == s;
      CategoriesSumToExpenses(init);
      CategoryNamesFacts(init);
      CategoriesSumStep(init, e);
      TotalsAfterAdd(init, e);
    }
  }

  /** Appending one entry adds its amount to the category sum exactly when it is an expense. */
  lemma CategoriesSumStep(init: seq<BudgetEntry>, e: BudgetEntry)
    requires NoDuplicates(CategoryNames(init))
    ensures SumOver(CategoryNames(init + [e]), init + [e])
      == SumOver(CategoryNames(init), init) + (if e.kind == Expense then e.amount else 0.0)
  {
    var names := CategoryNames(init);
    CategoryTotalAppend(init, e, e.category);
    SumOverAddEntry(names, init, e);
    if e.kind == Expense && e.category !in names {
      SumOverAddName(names, e.category, init + [e]);
      CategoryTotalOfMissing(init, e.category);
    }
  }

  /**
   * The `expenseCategories` reduction: walks the entries in order, skips
   * income, and adds each expense to its category's running total, creating
   * the key on first sight. `keys` is the object's key order.
   */
  method ExpenseCategories(entries: seq<BudgetEntry>) returns (acc: map<string, real>, keys: seq<string>)
    ensures keys == CategoryNames(entries)
    ensures forall c :: c in acc <==> c in keys
    ensures forall c :: c in acc ==> acc[c] == CategoryTotal(entries, c)
  {
    acc := map[];
    keys := [];
    var i := 0;
    while i < |entries|
      invariant 0 <= i <= |entries|
      invariant keys == CategoryNames(entries[..i])
      invariant forall c :: c in acc <==> c in keys
      invariant forall c :: c in acc ==> acc[c] == CategoryTotal(entries[..i], c)
    {
      var e := entries[i];
      assert entries[..i + 1] == entries[..i] + [e];
      forall c
        ensures CategoryTotal(entries[..i + 1], c) == CategoryTotal(entries[..i], c) + (if IsExpenseOf(e, c) then e.amount else 0.0)
      {
        CategoryTotalAppend(entries[..i], e, c);
      }
      CategoryTotalAppend(entries[..i], e, e.category);
      if e.kind == Expense {
        if e.category !in acc {
          CategoryTotalOfMissing(entries[..i], e.category);
        }
        var previous := if e.category in acc then acc[e.category] else 0.0;
        if e.category !in acc {
          keys := keys + [e.category];
        }
        acc := acc[e.category := previous + e.amount];
      }
      i := i + 1;
    }
    assert entries[..i] == entries;
  }

  datatype PieSlice = PieSlice(name: string, value: real)

  /** `Object.entries(expenseCategories).map(...)`, given the object's keys in order. */
  function Slices(keys: seq<string>, acc: map<string, real>): seq<PieSlice>
    requires forall k :: 0 <= k < |keys| ==> keys[k] in acc
  {
    if keys == [] then [] else Slices(keys[..|keys| - 1], acc) + [PieSlice(keys[|keys| - 1], acc[keys[|keys| - 1]])]
  }

  function SumSlices(slices: seq<PieSlice>): real
  {
    if slices == [] then 0.0 else SumSlices(slices[..|slices| - 1]) + slices[|slices| - 1].value
  }

  /** The pie data as a function of the entries: one slice per expense category, in key order. */
  function PieChartData(s: seq<BudgetEntry>): seq<PieSlice>
  {
    SlicesOf(CategoryNames(s), s)
  }

  function SlicesOf(names: seq<string>, s: seq<BudgetEntry>): (slices: seq<PieSlice>)
    ensures |slices| == |names|
    ensures forall k :: 0 <= k < |names| ==> slices[k] == PieSlice(names[k], CategoryTotal(s, names[k]))
  {
    if names == [] then [] else SlicesOf(names[..|names| - 1], s) + [PieSlice(names[|names| - 1], CategoryTotal(s, names[|names| - 1]))]
  }

  lemma {:induction false} SumSlicesOf(names: seq<string>, s: seq<BudgetEntry>)
    ensures SumSlices(SlicesOf(names, s)) == SumOver(names, s)
    decreases |names|
  {
    if names != [] {
      var init := names[..|names| - 1];
      SumSlicesOf(init, s);
      var slices := SlicesOf(names, s);
      assert slices[..|slices| - 1] == SlicesOf(init, s);
    }
  }

  lemma {:induction false} SlicesAgree(keys: seq<string>, acc: map<string, real>, s: seq<BudgetEntry>)
    requires forall k :: 0 <= k < |keys| ==> keys[k] in acc && acc[keys[k]] == CategoryTotal(s, keys[k])
    ensures Slices(keys, acc) == SlicesOf(keys, s)
    decreases |keys|
  {
    if keys != [] {
      SlicesAgree(keys[..|keys| - 1], acc, s);
    }
  }

  /** The pie slices the screen draws from the reduction's result are `PieChartData(entries)`. */
  method PieChart(entries: seq<BudgetEntry>) returns (slices: seq<PieSlice>)
    ensures slices == PieChartData(entries)
  {
    var acc, keys := ExpenseCategories(entries);
    SlicesAgree(keys, acc, entries);
    slices := Slices(keys, acc);
  }

  predicate HasSlice(slices: seq<PieSlice>, c: string)
  {
    exists k :: 0 <= k < |slices| && slices[k].name == c
  }

  predicate HasExpense(s: seq<BudgetEntry>, c: string)
  {
    exists i :: 0 <= i < |s| && IsExpenseOf(s[i], c)
  }

  /**
   * Each expense category has exactly one slice, no income-only category
   * has one, and the slices add up to the total expenses.
   */
  lemma PieChartFacts(s: seq<BudgetEntry>)
    ensures forall i, j :: 0 <= i < j < |PieChartData(s)| ==> PieChartData(s)[i].name != PieChartData(s)[j].name
    ensures forall c :: HasSlice(PieChartData(s), c) <==> HasExpense(s, c)
    ensures SumSlices(PieChartData(s)) == TotalExpenses(s)
  {
    var names := CategoryNames(s);
    CategoryNamesFacts(s);
    CategoriesSumToExpenses(s);
    SumSlicesOf(names, s);
    forall c
      ensures HasSlice(PieChartData(s), c) <==> c in names
    {
      if c in names {
        var k :| 0 <= k < |names| && names[k] == c;
        assert PieChartData(s)[k].name == c;
      }
    }
  }

  datatype BarChartDataItem = BarChartDataItem(name: string, amount: real, color: string)

  /** The bar chart: Income, Expenses and Net Savings, the last being the difference of the first two. */
  function BarChartData(s: seq<BudgetEntry>): (bars: seq<BarChartDataItem>)
    ensures |bars| == 3
    ensures bars[0].name == "Income" && bars[1].name == "Expenses" && bars[2].name == "Net Savings"
    ensures bars[0].amount == TotalIncome(s) && bars[1].amount == TotalExpenses(s)
    ensures bars[2].amount == bars[0].amount - bars[1].amount
  {
    [ BarChartDataItem("Income", TotalIncome(s), "#82ca9d"),
      BarChartDataItem("Expenses", TotalExpenses(s), "#ff8042"),
      BarChartDataItem("Net Savings", NetSavings(s), "#8884d8") ]
  }

  /**
   * The component's state: the `entries` array it renders, the form fields,
   * and the service array `MOCK_BUDGET` it talks to.
   */
  class BudgetBuilderView {
    const store: EntryList
    var entries: EntryList
    var newCategory: string
    var newAmount: real
    var newType: EntryType

    /** The form field values after a reset and on first render. */
    predicate FormIsReset()
      reads this
    {
      newCategory == "" && newAmount == 0.0 && newType == Expense
    }

    constructor (store: EntryList)
      ensures this.store == store && fresh(entries) && entries.items == []
      ensures FormIsReset()
    {
      this.store := store;
      entries := new EntryList([]);
      newCategory := "";
      newAmount := 0.0;
      newType := Expense;
    }

    /** `fetchBudgetEntries` as written: the state holds `MOCK_BUDGET` itself. */
    method FetchBudgetEntries()
      modifies this
      ensures entries == store
      ensures newCategory == old(newCategory) && newAmount == old(newAmount) && newType == old(newType)
    {
      entries := GetBudgetEntries(store);
    }

    /** `fetchBudgetEntries` with a copy of the service's array. */
    method FetchBudgetEntriesCopy()
      modifies this
      ensures fresh(entries) && entries.items == store.items
      ensures newCategory == old(newCategory) && newAmount == old(newAmount) && newType == old(newType)
    {
      entries := GetBudgetEntriesCopy(store);
    }

    /**
     * `handleAddEntry`: an empty category or an amount <= 0 changes nothing.
     * Otherwise the service appends the entry to its array, the state
     * becomes a fresh array `[...prev, newEntry]`, and the form is reset.
     * When the state was the service's array itself, `prev` already holds
     * the new entry, which then shows twice.
     */
    method HandleAddEntry(date: string)
      modifies this, store
      ensures old(newCategory) == "" || old(newAmount) <= 0.0 ==>
        && entries == old(entries) && entries.items == old(entries.items) && store.items == old(store.items)
        && newCategory == old(newCategory) && newAmount == old(newAmount) && newType == old(newType)
      ensures old(newCategory) != "" && old(newAmount) > 0.0 ==>
        var e := BudgetEntry(EntryId(|old(store.items)| + 1), old(newCategory), old(newAmount), old(newType), date);
        && store.items == old(store.items) + [e]
        && fresh(entries)
        && (old(entries) != store ==> entries.items == old(entries.items) + [e])
        && (old(entries) == store ==> entries.items == old(store.items) + [e, e])
        && FormIsReset()
    {
      if newCategory == "" || newAmount <= 0.0 {
        return;
      }
      var newEntry := AddBudgetEntry(store, NewEntry(newCategory, newAmount, newType, date));
      entries := new EntryList(entries.items + [newEntry]);
      newCategory := "";
      newAmount := 0.0;
      newType := Expense;
    }
  }

  /** Load the screen as written, then add one expense: it is stored once and shown twice. */
  method FirstAddAfterLoadAsWritten() returns (shown: seq<BudgetEntry>, stored: seq<BudgetEntry>)
    ensures |stored| == 9 && stored[..8] == SeedBudget()
    ensures |shown| == 10 && shown[..9] == stored && shown[9] == stored[8]
  {
    var service := new EntryList(SeedBudget());
    var view := new BudgetBuilderView(service);
    view.FetchBudgetEntries();
    view.newCategory := "Books";
    view.newAmount := 500.0;
    view.HandleAddEntry("2023-10-30");
    shown := view.entries.items;
    stored := service.items;
  }

  /** Load the screen with a copy, then add one expense: the screen shows what the service stores. */
  method FirstAddAfterLoad() returns (shown: seq<BudgetEntry>, stored: seq<BudgetEntry>)
    ensures |stored| == 9 && stored[..8] == SeedBudget()
    ensures shown == stored
  {
    var service := new EntryList(SeedBudget());
    var view := new BudgetBuilderView(service);
    view.FetchBudgetEntriesCopy();
    view.newCategory := "Books";
    view.newAmount := 500.0;
    view.HandleAddEntry("2023-10-30");
    shown := view.entries.items;
    stored := service.items;
  }
}
