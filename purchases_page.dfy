/** The Purchases page: the list it shows for the selected period and search term,
    and the dialog that adds, edits and deletes records. */
module PurchasesPage {
  import opened Common
  import opened Periods
  import opened Records
  import Text
  import Lists
  import DataStore
  import DashboardStats

  function RecordDate(r: Purchase): Stamp { r.purchaseDate }

  /** The search part of the list filter: the term, lower-cased, occurs in the
      lower-cased nameOfSeller or product. */
  predicate MatchesSearch(r: Purchase, term: string) {
    Text.Contains(Text.ToLower(r.nameOfSeller), Text.ToLower(term)) || Text.Contains(Text.ToLower(r.product), Text.ToLower(term))
  }

  /** A record is listed when it is dated in the selected period and matches the
      search. */
  predicate Listed(r: Purchase, term: string, selectedMonth: SelectedMonth, year: int) {
    InSelection(RecordDate(r), selectedMonth, year) && MatchesSearch(r, term)
  }

  function ListedBy(term: string, selectedMonth: SelectedMonth, year: int): Purchase -> bool {
    r => Listed(r, term, selectedMonth, year)
  }

  /** The page's filtered list: the listed records, in store order. */
  function FilteredList(rs: seq<Purchase>, term: string, selectedMonth: SelectedMonth, year: int): (r: seq<Purchase>)
    ensures |r| <= |rs|
    ensures forall x :: x in r <==> x in rs && Listed(x, term, selectedMonth, year)
    ensures forall x :: multiset(r)[x] == if Listed(x, term, selectedMonth, year) then multiset(rs)[x] else 0
  {
    Lists.FilterCount(rs, ListedBy(term, selectedMonth, year));
    Lists.Filter(rs, ListedBy(term, selectedMonth, year))
  }

  /** The list keeps store order: the listed records of a store made of two parts
      are those of the first part, then those of the second. */
  lemma FilteredListKeepsOrder(a: seq<Purchase>, b: seq<Purchase>, term: string, selectedMonth: SelectedMonth, year: int)
    ensures FilteredList(a + b, term, selectedMonth, year)
         == FilteredList(a, term, selectedMonth, year) + FilteredList(b, term, selectedMonth, year)
  {
    Lists.FilterAppend(a, b, ListedBy(term, selectedMonth, year));
  }

  /** With an empty search box the page lists exactly the records of the period
      the dashboard cards sum. */
  lemma {:induction false} EmptySearchListsPeriod(rs: seq<Purchase>, selectedMonth: SelectedMonth, year: int)
    ensures FilteredList(rs, "", selectedMonth, year)
         == InPeriodRecords(rs, RecordDate, DashboardStats.CurrentPeriod(selectedMonth, year))
  {
    forall x: Purchase
      ensures ListedBy("", selectedMonth, year)(x)
           == DatedIn(RecordDate, DashboardStats.CurrentPeriod(selectedMonth, year))(x)
    {
      Text.EmptyOccursEverywhere(Text.ToLower(x.nameOfSeller));
    }
    Lists.FilterSameTest(rs, ListedBy("", selectedMonth, year),
      DatedIn(RecordDate, DashboardStats.CurrentPeriod(selectedMonth, year)));
  }

  /** Searching for a record's own nameOfSeller finds it whenever its date is in
      the selected period. */
  lemma FoundByOwnName(r: Purchase, selectedMonth: SelectedMonth, year: int)
    ensures Listed(r, r.nameOfSeller, selectedMonth, year) <==> InSelection(RecordDate(r), selectedMonth, year)
  {
    assert Text.OccursAt(Text.ToLower(r.nameOfSeller), Text.ToLower(r.nameOfSeller), 0);
  }

  /** A draft as saving leaves it: it has a date. */
  predicate Consistent(d: PurchaseDraft) {
    d.purchaseDate.Some?
  }

  /** The record `handleSave` sends: the draft with its date defaulting to `now`;
      every other field as edited. Saving makes the draft consistent and leaves a
      consistent draft as it is. */
  function Saved(d: PurchaseDraft, now: Stamp): (r: PurchaseDraft)
    ensures Consistent(r)
    ensures r.(purchaseDate := d.purchaseDate) == d
    ensures d.purchaseDate.Some? ==> r.purchaseDate == d.purchaseDate
    ensures d.purchaseDate.None? ==> r.purchaseDate == Some(now)
    ensures d.Complete() ==> r.Complete()
    ensures Consistent(d) ==> r == d
  {
    var r := d.(
      purchaseDate := Some(d.purchaseDate.GetOr(now)));
    r
  }

  /** Saving twice is saving once, whatever `now` is the second time. */
  lemma SaveIdempotent(d: PurchaseDraft, now: Stamp, later: Stamp)
    ensures Saved(Saved(d, now), later) == Saved(d, now)
  {
  }

  /** `handleAddNew`'s draft: no id, the date set to now and the amount 0. Saving
      it adds a new record. */
  function NewDraft(now: Stamp): (r: PurchaseDraft)
    ensures !Truthy(r.sNo)
    ensures r.purchaseDate == Some(now)
    ensures r.amount == Some(0.0)
  {
    PurchaseDraft(None, None, None, Some(now), None, Some(0.0))
  }

  /** A new draft saved untouched and added to the store becomes a record with the
      fresh id and the draft's own values, not the generated defaults. */
  lemma NewRecordAsDrafted(now: Stamp, later: Stamp, defaults: Purchase, id: int)
    ensures var r := Saved(NewDraft(now), later).Over(defaults, id);
      && r.sNo == id
      && r.purchaseDate == now && r.amount == 0.0
  {
  }

  /** The page's dialog state: the draft being edited (`null` when none) and
      whether the dialog is open. */
  class PurchasesDialog {
    var current: Option<PurchaseDraft>
    var dialogOpen: bool

    /** A draft that carries an id came from an existing record, so it is complete
        and the update's cast is sound. */
    predicate Valid()
      reads this
    {
      current.Some? && Truthy(current.value.sNo) ==> current.value.Complete()
    }

    constructor()
      ensures Valid()
      ensures current == None && !dialogOpen
    {
      current := None;
      dialogOpen := false;
    }

    /** `handleAddNew`: opens the dialog on the default draft. */
    method HandleAddNew(now: Stamp)
      modifies this
      ensures Valid()
      ensures current == Some(NewDraft(now)) && dialogOpen
    {
      current := Some(NewDraft(now));
      dialogOpen := true;
    }

    /** `handleEdit`: opens the dialog on the record itself. */
    method HandleEdit(purchase: Purchase)
      modifies this
      ensures Valid()
      ensures current == Some(purchase.ToDraft()) && dialogOpen
    {
      current := Some(purchase.ToDraft());
      dialogOpen := true;
    }

    /** `handleSave`: with no draft, nothing happens. Otherwise the saved draft
        replaces the store's records with its id when the draft has a truthy id,
        and is added in front (on top of the generated defaults, under the fresh
        id) when not; then the dialog closes and the draft is cleared. */
    method HandleSave(store: DataStore.Store, now: Stamp, defaults: Purchase, id: int)
      requires Valid()
      modifies this, store`purchases
      ensures Valid()
      ensures old(current).None? ==>
        store.purchases == old(store.purchases) && current == old(current) && dialogOpen == old(dialogOpen)
      ensures old(current).Some? && Truthy(old(current).value.sNo) ==>
        store.purchases == Lists.Replace(old(store.purchases), DataStore.PurchaseId, Saved(old(current).value, now).ToRecord())
      ensures old(current).Some? && !Truthy(old(current).value.sNo) ==>
        store.purchases == [Saved(old(current).value, now).Over(defaults, id)] + old(store.purchases)
      ensures old(current).Some? ==> current.None? && !dialogOpen
    {
      if current.Some? {
        var saved := Saved(current.value, now);
        if Truthy(current.value.sNo) {
          store.UpdatePurchase(saved.ToRecord());
        } else {
          store.AddPurchase(saved, defaults, id);
        }
        dialogOpen := false;
        current := None;
      }
    }

    /** `handleDelete`: deletes the records with that id when the user confirms,
        and does nothing otherwise. */
    method HandleDelete(store: DataStore.Store, sNo: int, confirmed: bool)
      modifies store`purchases
      ensures confirmed ==> store.purchases == Lists.Remove(old(store.purchases), DataStore.PurchaseId, sNo)
      ensures !confirmed ==> store.purchases == old(store.purchases)
    {
      if confirmed {
        store.DeletePurchase(sNo);
      }
    }
  }
}
