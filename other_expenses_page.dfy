/** The Other Expenses page: the list it shows for the selected period and search
    term, and the dialog that adds, edits and deletes records. */
module OtherExpensesPage {
  import opened Common
  import opened Periods
  import opened Records
  import Text
  import Lists
  import DataStore
  import DashboardStats

  function RecordDate(r: OtherExpense): Stamp { r.dateOfExpenses }

  /** The search part of the list filter: the term, lower-cased, occurs in the
      lower-cased expenseName. */
  predicate MatchesSearch(r: OtherExpense, term: string) {
    Text.Contains(Text.ToLower(r.expenseName), Text.ToLower(term))
  }

  /** A record is listed when it is dated in the selected period and matches the
      search. */
  predicate Listed(r: OtherExpense, term: string, selectedMonth: SelectedMonth, year: int) {
    InSelection(RecordDate(r), selectedMonth, year) && MatchesSearch(r, term)
  }

  function ListedBy(term: string, selectedMonth: SelectedMonth, year: int): OtherExpense -> bool {
    r => Listed(r, term, selectedMonth, year)
  }

  /** The page's filtered list: the listed records, in store order. */
  function FilteredList(rs: seq<OtherExpense>, term: string, selectedMonth: SelectedMonth, year: int): (r: seq<OtherExpense>)
    ensures |r| <= |rs|
    ensures forall x :: x in r <==> x in rs && Listed(x, term, selectedMonth, year)
    ensures forall x :: multiset(r)[x] == if Listed(x, term, selectedMonth, year) then multiset(rs)[x] else 0
  {
    Lists.FilterCount(rs, ListedBy(term, selectedMonth, year));
    Lists.Filter(rs, ListedBy(term, selectedMonth, year))
  }

  /** The list keeps store order: the listed records of a store made of two parts
      are those of the first part, then those of the second. */
  lemma FilteredListKeepsOrder(a: seq<OtherExpense>, b: seq<OtherExpense>, term: string, selectedMonth: SelectedMonth, year: int)
    ensures FilteredList(a + b, term, selectedMonth, year)
         == FilteredList(a, term, selectedMonth, year) + FilteredList(b, term, selectedMonth, year)
  {
    Lists.FilterAppend(a, b, ListedBy(term, selectedMonth, year));
  }

  /** With an empty search box the page lists exactly the records of the period
      the dashboard cards sum. */
  lemma {:induction false} EmptySearchListsPeriod(rs: seq<OtherExpense>, selectedMonth: SelectedMonth, year: int)
    ensures FilteredList(rs, "", selectedMonth, year)
         == InPeriodRecords(rs, RecordDate, DashboardStats.CurrentPeriod(selectedMonth, year))
  {
    forall x: OtherExpense
      ensures ListedBy("", selectedMonth, year)(x)
           == DatedIn(RecordDate, DashboardStats.CurrentPeriod(selectedMonth, year))(x)
    {
      Text.EmptyOccursEverywhere(Text.ToLower(x.expenseName));
    }
    Lists.FilterSameTest(rs, ListedBy("", selectedMonth, year),
      DatedIn(RecordDate, DashboardStats.CurrentPeriod(selectedMonth, year)));
  }

  /** Searching for a record's own expenseName finds it whenever its date is in
      the selected period. */
  lemma FoundByOwnName(r: OtherExpense, selectedMonth: SelectedMonth, year: int)
    ensures Listed(r, r.expenseName, selectedMonth, year) <==> InSelection(RecordDate(r), selectedMonth, year)
  {
    assert Text.OccursAt(Text.ToLower(r.expenseName), Text.ToLower(r.expenseName), 0);
  }

  /** A draft as saving leaves it: it has a date. */
  predicate Consistent(d: OtherExpenseDraft) {
    d.dateOfExpenses.Some?
  }

  /** The record `handleSave` sends: the draft with its date defaulting to `now`;
      every other field as edited. Saving makes the draft consistent and leaves a
      consistent draft as it is. */
  function Saved(d: OtherExpenseDraft, now: Stamp): (r: OtherExpenseDraft)
    ensures Consistent(r)
    ensures r.(dateOfExpenses := d.dateOfExpenses) == d
    ensures d.dateOfExpenses.Some? ==> r.dateOfExpenses == d.dateOfExpenses
    ensures d.dateOfExpenses.None? ==> r.dateOfExpenses == Some(now)
    ensures d.Complete() ==> r.Complete()
    ensures Consistent(d) ==> r == d
  {
    var r := d.(
      dateOfExpenses := Some(d.dateOfExpenses.GetOr(now)));
    r
  }

  /** Saving twice is saving once, whatever `now` is the second time. */
  lemma SaveIdempotent(d: OtherExpenseDraft, now: Stamp, later: Stamp)
    ensures Saved(Saved(d, now), later) == Saved(d, now)
  {
  }

  /** `handleAddNew`'s draft: no id, the date set to now and the amount 0. Saving
      it adds a new record. */
  function NewDraft(now: Stamp): (r: OtherExpenseDraft)
    ensures !Truthy(r.sNo)
    ensures r.dateOfExpenses == Some(now)
    ensures r.amount == Some(0.0)
  {
    OtherExpenseDraft(None, None, Some(now), Some(0.0))
  }

  /** A new draft saved untouched and added to the store becomes a record with the
      fresh id and the draft's own values, not the generated defaults. */
  lemma NewRecordAsDrafted(now: Stamp, later: Stamp, defaults: OtherExpense, id: int)
    ensures var r := Saved(NewDraft(now), later).Over(defaults, id);
      && r.sNo == id
      && r.dateOfExpenses == now && r.amount == 0.0
  {
  }

  /** The page's dialog state: the draft being edited (`null` when none) and
      whether the dialog is open. */
  class OtherExpensesDialog {
    var current: Option<OtherExpenseDraft>
    var dialogOpen: bool

    /** A draft that carries an id came from an existing record, so it is complete
        and the update's cast is sound. */
    predicate Valid()
      reads this
    {
      current.Some? && Truthy(current.value.sNo) ==> current.value.Complete()
    }

    constructor()
      ensures Valid()
      ensures current == None && !dialogOpen
    {
      current := None;
      dialogOpen := false;
    }

    /** `handleAddNew`: opens the dialog on the default draft. */
    method HandleAddNew(now: Stamp)
      modifies this
      ensures Valid()
      ensures current == Some(NewDraft(now)) && dialogOpen
    {
      current := Some(NewDraft(now));
      dialogOpen := true;
    }

    /** `handleEdit`: opens the dialog on the record itself. */
    method HandleEdit(expense: OtherExpense)
      modifies this
      ensures Valid()
      ensures current == Some(expense.ToDraft()) && dialogOpen
    {
      current := Some(expense.ToDraft());
      dialogOpen := true;
    }

    /** `handleSave`: with no draft, nothing happens. Otherwise the saved draft
        replaces the store's records with its id when the draft has a truthy id,
        and is added in front (on top of the generated defaults, under the fresh
        id) when not; then the dialog closes and the draft is cleared. */
    method HandleSave(store: DataStore.Store, now: Stamp, defaults: OtherExpense, id: int)
      requires Valid()
      modifies this, store`otherExpenses
      ensures Valid()
      ensures old(current).None? ==>
        store.otherExpenses == old(store.otherExpenses) && current == old(current) && dialogOpen == old(dialogOpen)
      ensures old(current).Some? && Truthy(old(current).value.sNo) ==>
        store.otherExpenses == Lists.Replace(old(store.otherExpenses), DataStore.OtherExpenseId, Saved(old(current).value, now).ToRecord())
      ensures old(current).Some? && !Truthy(old(current).value.sNo) ==>
        store.otherExpenses == [Saved(old(current).value, now).Over(defaults, id)] + old(store.otherExpenses)
      ensures old(current).Some? ==> current.None? && !dialogOpen
    {
      if current.Some? {
        var saved := Saved(current.value, now);
        if Truthy(current.value.sNo) {
          store.UpdateOtherExpense(saved.ToRecord());
        } else {
          store.AddOtherExpense(saved, defaults, id);
        }
        dialogOpen := false;
        current := None;
      }
    }

    /** `handleDelete`: deletes the records with that id when the user confirms,
        and does nothing otherwise. */
    method HandleDelete(store: DataStore.Store, sNo: int, confirmed: bool)
      modifies store`otherExpenses
      ensures confirmed ==> store.otherExpenses == Lists.Remove(old(store.otherExpenses), DataStore.OtherExpenseId, sNo)
      ensures !confirmed ==> store.otherExpenses == old(store.otherExpenses)
    {
      if confirmed {
        store.DeleteOtherExpense(sNo);
      }
    }
  }
}
