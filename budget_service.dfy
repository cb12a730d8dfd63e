/**
 * The mock budget service (`budgetService` in `services/api.ts`): a
 * module-level array `MOCK_BUDGET` of budget entries that the service
 * returns, appends to, overwrites in place and splices. The array is an
 * object here (`EntryList`) because the service hands out the array itself,
 * so a caller that keeps it sees later mutations.
 */
module BudgetService {
  import opened Types
  import opened Strings

  /** A JavaScript array of budget entries: one mutable object. */
  class EntryList {
    var items: seq<BudgetEntry>

    constructor (items: seq<BudgetEntry>)
      ensures this.items == items
    {
      this.items := items;
    }
  }

  /** The eight entries `MOCK_BUDGET` starts with. */
  function SeedBudget(): seq<BudgetEntry>
  {
    [ BudgetEntry("b1", "Salary", 75000.0, Income, "2023-10-01"),
      BudgetEntry("b2", "Rent", 18000.0, Expense, "2023-10-05"),
      BudgetEntry("b3", "Groceries", 6000.0, Expense, "2023-10-07"),
      BudgetEntry("b4", "Utilities", 3000.0, Expense, "2023-10-10"),
      BudgetEntry("b5", "Transport", 2500.0, Expense, "2023-10-12"),
      BudgetEntry("b6", "Entertainment", 4000.0, Expense, "2023-10-15"),
      BudgetEntry("b7", "Investments", 15000.0, Expense, "2023-10-20"),
      BudgetEntry("b8", "Freelance", 10000.0, Income, "2023-10-25") ]
  }

  /** An entry without its id (`Omit<BudgetEntry, 'id'>`). */
  datatype NewEntry = NewEntry(category: string, amount: real, kind: EntryType, date: string)

  /** The id minted for the `n`-th entry: `b${n}`. */
  function EntryId(n: nat): string
  {
    "b" + NatToString(n)
  }

  /**
   * `getBudgetEntries` as written: it resolves to `MOCK_BUDGET` itself,
   * not to a copy.
   */
  method GetBudgetEntries(store: EntryList) returns (entries: EntryList)
    ensures entries == store
  {
    entries := store;
  }

  /**
   * `getBudgetEntries` as a REST endpoint behaves: a fresh array holding
   * the same entries.
   */
  method GetBudgetEntriesCopy(store: EntryList) returns (entries: EntryList)
    ensures fresh(entries) && entries.items == store.items
  {
    entries := new EntryList(store.items);
  }

  /** `addBudgetEntry`: appends the entry under id `b<old length + 1>` and returns it. */
  method AddBudgetEntry(store: EntryList, entry: NewEntry) returns (newEntry: BudgetEntry)
    modifies store
    ensures newEntry == BudgetEntry(EntryId(|old(store.items)| + 1), entry.category, entry.amount, entry.kind, entry.date)
    ensures store.items == old(store.items) + [newEntry]
  {
    newEntry := BudgetEntry(EntryId(|store.items| + 1), entry.category, entry.amount, entry.kind, entry.date);
    store.items := store.items + [newEntry];
  }

  /** `findIndex(e => e.id === id)`: the first matching position, or -1. */
  function FindIndex(items: seq<BudgetEntry>, id: string): (k: int)
    ensures -1 <= k < |items|
    ensures k >= 0 ==> items[k].id == id && forall j :: 0 <= j < k ==> items[j].id != id
    ensures k == -1 <==> forall j :: 0 <= j < |items| ==> items[j].id != id
  {
    if items == [] then -1
    else if items[0].id == id then 0
    else
      var k := FindIndex(items[1..], id);
      if k == -1 then -1 else k + 1
  }

  /** The first position carrying the id is the one `findIndex` reports. */
  lemma FirstMatchIsFound(items: seq<BudgetEntry>, id: string, k: nat)
    requires k < |items| && items[k].id == id && forall j :: 0 <= j < k ==> items[j].id != id
    ensures FindIndex(items, id) == k
  {
    var f := FindIndex(items, id);
    assert f != -1;
    assert !(f < k) && !(f > k);
  }

  /** The list after `updateBudgetEntry`: the first entry with the same id is replaced. */
  function Updated(items: seq<BudgetEntry>, updatedEntry: BudgetEntry): seq<BudgetEntry>
  {
    var k := FindIndex(items, updatedEntry.id);
    if k != -1 then items[k := updatedEntry] else items
  }

  /**
   * `updateBudgetEntry` keeps the length, overwrites only the first entry
   * carrying the id and leaves the list untouched when no entry carries it.
   */
  lemma UpdateReplacesFirstMatch(items: seq<BudgetEntry>, u: BudgetEntry)
    ensures |Updated(items, u)| == |items|
    ensures (forall j :: 0 <= j < |items| ==> items[j].id != u.id) ==> Updated(items, u) == items
    ensures forall k :: 0 <= k < |items| && items[k].id == u.id && (forall j :: 0 <= j < k ==> items[j].id != u.id) ==>
      && Updated(items, u)[k] == u
      && (forall j :: 0 <= j < |items| && j != k ==> Updated(items, u)[j] == items[j])
  {
    forall k | 0 <= k < |items| && items[k].id == u.id && (forall j :: 0 <= j < k ==> items[j].id != u.id)
      ensures FindIndex(items, u.id) == k
    {
      FirstMatchIsFound(items, u.id, k);
    }
  }

  method UpdateBudgetEntry(store: EntryList, updatedEntry: BudgetEntry) returns (r: BudgetEntry)
    modifies store
    ensures r == updatedEntry
    ensures store.items == Updated(old(store.items), updatedEntry)
  {
    var index := FindIndex(store.items, updatedEntry.id);
    if index != -1 {
      store.items := store.items[index := updatedEntry];
    }
    r := updatedEntry;
  }

  /**
   * `Array.prototype.splice(start, 1)`: a negative start counts from the
   * end (clamped at 0), a start past the end removes nothing.
   */
  function SpliceOne(items: seq<BudgetEntry>, start: int): seq<BudgetEntry>
  {
    var actual := if start < 0 then (if |items| + start > 0 then |items| + start else 0)
                  else (if start < |items| then start else |items|);
    if actual < |items| then items[..actual] + items[actual + 1..] else items
  }

  /** The list after `deleteBudgetEntry` as written: `splice(findIndex(...), 1)`. */
  function Deleted(items: seq<BudgetEntry>, id: string): seq<BudgetEntry>
  {
    SpliceOne(items, FindIndex(items, id))
  }

  /** A present id: its first occurrence is removed. */
  lemma DeletePresentRemovesFirstMatch(items: seq<BudgetEntry>, id: string, k: nat)
    requires k < |items| && items[k].id == id && forall j :: 0 <= j < k ==> items[j].id != id
    ensures Deleted(items, id) == items[..k] + items[k + 1..]
  {
    FirstMatchIsFound(items, id, k);
  }

  /**
   * An absent id: `findIndex` gives -1 and `splice(-1, 1)` removes the LAST
   * entry of a non-empty list; an empty list is left alone.
   */
  lemma DeleteAbsentRemovesLast(items: seq<BudgetEntry>, id: string)
    requires forall j :: 0 <= j < |items| ==> items[j].id != id
    ensures |items| > 0 ==> Deleted(items, id) == items[..|items| - 1]
    ensures items == [] ==> Deleted(items, id) == []
  {
  }

  /** The boolean `deleteBudgetEntry` returns (`length < initialLength`) is true exactly for a non-empty list. */
  lemma DeleteReportsNonEmpty(items: seq<BudgetEntry>, id: string)
    ensures |Deleted(items, id)| < |items| <==> |items| > 0
    ensures |items| > 0 ==> |Deleted(items, id)| == |items| - 1
  {
  }

  /** On the seed data, deleting an id nobody has deletes "b8" (Freelance) and reports success. */
  lemma DeleteUnknownIdOnSeed()
    ensures Deleted(SeedBudget(), "b99") == SeedBudget()[..7]
    ensures SeedBudget()[7].id == "b8"
    ensures |Deleted(SeedBudget(), "b99")| < |SeedBudget()|
  {
    DeleteAbsentRemovesLast(SeedBudget(), "b99");
  }

  /** `deleteBudgetEntry` as written. */
  method DeleteBudgetEntry(store: EntryList, id: string) returns (deleted: bool)
    modifies store
    ensures store.items == Deleted(old(store.items), id)
    ensures deleted <==> |store.items| < |old(store.items)|
  {
    var initialLength := |store.items|;
    store.items := SpliceOne(store.items, FindIndex(store.items, id));
    deleted := |store.items| < initialLength;
  }

  /** The evidently intended delete: remove the first entry with the id, if there is one. */
  function DeletedChecked(items: seq<BudgetEntry>, id: string): seq<BudgetEntry>
  {
    var k := FindIndex(items, id);
    if k == -1 then items else items[..k] + items[k + 1..]
  }

  /**
   * The intended delete never removes an entry with another id: it removes
   * one entry exactly when the id is present, and otherwise changes nothing.
   */
  lemma DeletedCheckedRemovesOnlyTheId(items: seq<BudgetEntry>, id: string)
    ensures (exists j :: 0 <= j < |items| && items[j].id == id) <==> |DeletedChecked(items, id)| == |items| - 1
    ensures (forall j :: 0 <= j < |items| ==> items[j].id != id) ==> DeletedChecked(items, id) == items
    ensures forall k :: 0 <= k < |items| && items[k].id == id && (forall j :: 0 <= j < k ==> items[j].id != id) ==>
      DeletedChecked(items, id) == items[..k] + items[k + 1..]
  {
    forall k | 0 <= k < |items| && items[k].id == id && (forall j :: 0 <= j < k ==> items[j].id != id)
      ensures FindIndex(items, id) == k
    {
      FirstMatchIsFound(items, id, k);
    }
    if exists j :: 0 <= j < |items| && items[j].id == id {
      assert FindIndex(items, id) != -1;
    }
  }

  method DeleteBudgetEntryChecked(store: EntryList, id: string) returns (deleted: bool)
    modifies store
    ensures store.items == DeletedChecked(old(store.items), id)
    ensures deleted <==> |store.items| < |old(store.items)|
  {
    var initialLength := |store.items|;
    var index := FindIndex(store.items, id);
    if index != -1 {
      store.items := store.items[..index] + store.items[index + 1..];
    }
    deleted := |store.items| < initialLength;
  }
}
