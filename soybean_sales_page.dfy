/** The Soybean Sales page: the list it shows for the selected period and search
    term, and the dialog that adds, edits and deletes records. */
module SoybeanSalesPage {
  import opened Common
  import opened Periods
  import opened Records
  import Text
  import Lists
  import DataStore
  import DashboardStats

  function RecordDate(r: SoybeanSale): Stamp { r.dateOfSale }

  /** The search part of the list filter: the term, lower-cased, occurs in the
      lower-cased nameOfBuyer. */
  predicate MatchesSearch(r: SoybeanSale, term: string) {
    Text.Contains(Text.ToLower(r.nameOfBuyer), Text.ToLower(term))
  }

  /** A record is listed when it is dated in the selected period and matches the
      search. */
  predicate Listed(r: SoybeanSale, term: string, selectedMonth: SelectedMonth, year: int) {
    InSelection(RecordDate(r), selectedMonth, year) && MatchesSearch(r, term)
  }

  function ListedBy(term: string, selectedMonth: SelectedMonth, year: int): SoybeanSale -> bool {
    r => Listed(r, term, selectedMonth, year)
  }

  /** The page's filtered list: the listed records, in store order. */
  function FilteredList(rs: seq<SoybeanSale>, term: string, selectedMonth: SelectedMonth, year: int): (r: seq<SoybeanSale>)
    ensures |r| <= |rs|
    ensures forall x :: x in r <==> x in rs && Listed(x, term, selectedMonth, year)
    ensures forall x :: multiset(r)[x] == if Listed(x, term, selectedMonth, year) then multiset(rs)[x] else 0
  {
    Lists.FilterCount(rs, ListedBy(term, selectedMonth, year));
    Lists.Filter(rs, ListedBy(term, selectedMonth, year))
  }

  /** The list keeps store order: the listed records of a store made of two parts
      are those of the first part, then those of the second. */
  lemma FilteredListKeepsOrder(a: seq<SoybeanSale>, b: seq<SoybeanSale>, term: string, selectedMonth: SelectedMonth, year: int)
    ensures FilteredList(a + b, term, selectedMonth, year)
         == FilteredList(a, term, selectedMonth, year) + FilteredList(b, term, selectedMonth, year)
  {
    Lists.FilterAppend(a, b, ListedBy(term, selectedMonth, year));
  }

  /** With an empty search box the page lists exactly the records of the period
      the dashboard cards sum. */
  lemma {:induction false} EmptySearchListsPeriod(rs: seq<SoybeanSale>, selectedMonth: SelectedMonth, year: int)
    ensures FilteredList(rs, "", selectedMonth, year)
         == InPeriodRecords(rs, RecordDate, DashboardStats.CurrentPeriod(selectedMonth, year))
  {
    forall x: SoybeanSale
      ensures ListedBy("", selectedMonth, year)(x)
           == DatedIn(RecordDate, DashboardStats.CurrentPeriod(selectedMonth, year))(x)
    {
      Text.EmptyOccursEverywhere(Text.ToLower(x.nameOfBuyer));
    }
    Lists.FilterSameTest(rs, ListedBy("", selectedMonth, year),
      DatedIn(RecordDate, DashboardStats.CurrentPeriod(selectedMonth, year)));
  }

  /** Searching for a record's own nameOfBuyer finds it whenever its date is in
      the selected period. */
  lemma FoundByOwnName(r: SoybeanSale, selectedMonth: SelectedMonth, year: int)
    ensures Listed(r, r.nameOfBuyer, selectedMonth, year) <==> InSelection(RecordDate(r), selectedMonth, year)
  {
    assert Text.OccursAt(Text.ToLower(r.nameOfBuyer), Text.ToLower(r.nameOfBuyer), 0);
  }

  /** The derived total, `(quantity || 0) * (rate || 0)`: an absent factor counts
      as 0. */
  function Total(d: SoybeanSaleDraft): real {
    d.quantity.GetOr(0.0) * d.rate.GetOr(0.0)
  }

  /** A draft as saving leaves it: it has a date, its total is its derived total. */
  predicate Consistent(d: SoybeanSaleDraft) {
    d.dateOfSale.Some? &&
    d.totalPrice == Some(Total(d))
  }

  /** The record `handleSave` sends: the draft with its total recomputed, and its
      date defaulting to `now`; every other field as edited. Saving makes the
      draft consistent and leaves a consistent draft as it is. */
  function Saved(d: SoybeanSaleDraft, now: Stamp): (r: SoybeanSaleDraft)
    ensures Consistent(r)
    ensures r.(totalPrice := d.totalPrice, dateOfSale := d.dateOfSale) == d
    ensures d.dateOfSale.Some? ==> r.dateOfSale == d.dateOfSale
    ensures d.dateOfSale.None? ==> r.dateOfSale == Some(now)
    ensures d.Complete() ==> r.Complete()
    ensures Consistent(d) ==> r == d
  {
    var total := Total(d);
    var r := d.(
      totalPrice := Some(total),
      dateOfSale := Some(d.dateOfSale.GetOr(now)));
    assert Total(r) == total;
    r
  }

  /** Saving twice is saving once, whatever `now` is the second time. */
  lemma SaveIdempotent(d: SoybeanSaleDraft, now: Stamp, later: Stamp)
    ensures Saved(Saved(d, now), later) == Saved(d, now)
  {
  }

  /** `handleAddNew`'s draft: no id, the date set to now, status Pending, quantity
      and rate 0. Saving it adds a new record. */
  function NewDraft(now: Stamp): (r: SoybeanSaleDraft)
    ensures !Truthy(r.sNo)
    ensures r.dateOfSale == Some(now)
    ensures r.paymentStatus == Some(Pending)
    ensures r.quantity == Some(0.0) && r.rate == Some(0.0)
  {
    SoybeanSaleDraft(None, None, Some(now), Some(0.0), Some(0.0), None, Some(Pending))
  }

  /** A new record saved untouched has total 0. */
  lemma NewDraftSavesZero(now: Stamp, later: Stamp)
    ensures Saved(NewDraft(now), later).totalPrice == Some(0.0)
    ensures Saved(NewDraft(now), later).dateOfSale == Some(now)
  {
  }

  /** A new draft saved untouched and added to the store becomes a record with the
      fresh id and the draft's own values, not the generated defaults. */
  lemma NewRecordAsDrafted(now: Stamp, later: Stamp, defaults: SoybeanSale, id: int)
    ensures var r := Saved(NewDraft(now), later).Over(defaults, id);
      && r.sNo == id
      && r.dateOfSale == now && r.paymentStatus == Pending
      && r.quantity == 0.0 && r.rate == 0.0 && r.totalPrice == 0.0
  {
  }

  /** The page's dialog state: the draft being edited (`null` when none) and
      whether the dialog is open. */
  class SoybeanSalesDialog {
    var current: Option<SoybeanSaleDraft>
    var dialogOpen: bool

    /** A draft that carries an id came from an existing record, so it is complete
        and the update's cast is sound. */
    predicate Valid()
      reads this
    {
      current.Some? && Truthy(current.value.sNo) ==> current.value.Complete()
    }

    constructor()
      ensures Valid()
      ensures current == None && !dialogOpen
    {
      current := None;
      dialogOpen := false;
    }

    /** `handleAddNew`: opens the dialog on the default draft. */
    method HandleAddNew(now: Stamp)
      modifies this
      ensures Valid()
      ensures current == Some(NewDraft(now)) && dialogOpen
    {
      current := Some(NewDraft(now));
      dialogOpen := true;
    }

    /** `handleEdit`: opens the dialog on the record itself. */
    method HandleEdit(sale: SoybeanSale)
      modifies this
      ensures Valid()
      ensures current == Some(sale.ToDraft()) && dialogOpen
    {
      current := Some(sale.ToDraft());
      dialogOpen := true;
    }

    /** `handleSave`: with no draft, nothing happens. Otherwise the saved draft
        replaces the store's records with its id when the draft has a truthy id,
        and is added in front (on top of the generated defaults, under the fresh
        id) when not; then the dialog closes and the draft is cleared. */
    method HandleSave(store: DataStore.Store, now: Stamp, defaults: SoybeanSale, id: int)
      requires Valid()
      modifies this, store`soybeanSales
      ensures Valid()
      ensures old(current).None? ==>
        store.soybeanSales == old(store.soybeanSales) && current == old(current) && dialogOpen == old(dialogOpen)
      ensures old(current).Some? && Truthy(old(current).value.sNo) ==>
        store.soybeanSales == Lists.Replace(old(store.soybeanSales), DataStore.SoybeanSaleId, Saved(old(current).value, now).ToRecord())
      ensures old(current).Some? && !Truthy(old(current).value.sNo) ==>
        store.soybeanSales == [Saved(old(current).value, now).Over(defaults, id)] + old(store.soybeanSales)
      ensures old(current).Some? ==> current.None? && !dialogOpen
    {
      if current.Some? {
        var saved := Saved(current.value, now);
        if Truthy(current.value.sNo) {
          store.UpdateSoybeanSale(saved.ToRecord());
        } else {
          store.AddSoybeanSale(saved, defaults, id);
        }
        dialogOpen := false;
        current := None;
      }
    }

    /** `handleDelete`: deletes the records with that id when the user confirms,
        and does nothing otherwise. */
    method HandleDelete(store: DataStore.Store, sNo: int, confirmed: bool)
      modifies store`soybeanSales
      ensures confirmed ==> store.soybeanSales == Lists.Remove(old(store.soybeanSales), DataStore.SoybeanSaleId, sNo)
      ensures !confirmed ==> store.soybeanSales == old(store.soybeanSales)
    {
      if confirmed {
        store.DeleteSoybeanSale(sNo);
      }
    }
  }
}
