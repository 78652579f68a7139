/** The Silage Sales page: the list it shows for the selected period and search
    term, and the dialog that adds, edits and deletes records. */
module SilageSalesPage {
  import opened Common
  import opened Periods
  import opened Records
  import Text
  import Lists
  import DataStore
  import DashboardStats

  function RecordDate(r: SilageSale): Stamp { r.dateOfPerchase }

  /** The search part of the list filter: the term, lower-cased, occurs in the
      lower-cased nameOfBuyer field, or the term occurs as typed in the invoice
      number's decimal text. */
  predicate MatchesSearch(r: SilageSale, term: string) {
    Text.Contains(Text.ToLower(r.nameOfBuyer), Text.ToLower(term)) || Text.Contains(Text.IntToString(r.invoiceNo), term)
  }

  /** A record is listed when it is dated in the selected period and matches the
      search. */
  predicate Listed(r: SilageSale, term: string, selectedMonth: SelectedMonth, year: int) {
    InSelection(RecordDate(r), selectedMonth, year) && MatchesSearch(r, term)
  }

  function ListedBy(term: string, selectedMonth: SelectedMonth, year: int): SilageSale -> bool {
    r => Listed(r, term, selectedMonth, year)
  }

  /** The page's filtered list: the listed records, in store order. */
  function FilteredList(rs: seq<SilageSale>, term: string, selectedMonth: SelectedMonth, year: int): (r: seq<SilageSale>)
    ensures |r| <= |rs|
    ensures forall x :: x in r <==> x in rs && Listed(x, term, selectedMonth, year)
    ensures forall x :: multiset(r)[x] == if Listed(x, term, selectedMonth, year) then multiset(rs)[x] else 0
  {
    Lists.FilterCount(rs, ListedBy(term, selectedMonth, year));
    Lists.Filter(rs, ListedBy(term, selectedMonth, year))
  }

  /** The list keeps store order: the listed records of a store made of two parts
      are those of the first part, then those of the second. */
  lemma FilteredListKeepsOrder(a: seq<SilageSale>, b: seq<SilageSale>, term: string, selectedMonth: SelectedMonth, year: int)
    ensures FilteredList(a + b, term, selectedMonth, year)
         == FilteredList(a, term, selectedMonth, year) + FilteredList(b, term, selectedMonth, year)
  {
    Lists.FilterAppend(a, b, ListedBy(term, selectedMonth, year));
  }

  /** With an empty search box the page lists exactly the records of the period
      the dashboard cards sum. */
  lemma {:induction false} EmptySearchListsPeriod(rs: seq<SilageSale>, selectedMonth: SelectedMonth, year: int)
    ensures FilteredList(rs, "", selectedMonth, year)
         == InPeriodRecords(rs, RecordDate, DashboardStats.CurrentPeriod(selectedMonth, year))
  {
    forall x: SilageSale
      ensures ListedBy("", selectedMonth, year)(x)
           == DatedIn(RecordDate, DashboardStats.CurrentPeriod(selectedMonth, year))(x)
    {
      Text.EmptyOccursEverywhere(Text.ToLower(x.nameOfBuyer));
    }
    Lists.FilterSameTest(rs, ListedBy("", selectedMonth, year),
      DatedIn(RecordDate, DashboardStats.CurrentPeriod(selectedMonth, year)));
  }

  /** Searching for a record's own nameOfBuyer finds it whenever its date is in
      the selected period. */
  lemma FoundByOwnName(r: SilageSale, selectedMonth: SelectedMonth, year: int)
    ensures Listed(r, r.nameOfBuyer, selectedMonth, year) <==> InSelection(RecordDate(r), selectedMonth, year)
  {
    assert Text.OccursAt(Text.ToLower(r.nameOfBuyer), Text.ToLower(r.nameOfBuyer), 0);
  }

  /** Searching for a sale's invoice number finds it whenever its date is in the
      selected period. */
  lemma FoundByInvoiceNumber(r: SilageSale, selectedMonth: SelectedMonth, year: int)
    ensures Listed(r, Text.IntToString(r.invoiceNo), selectedMonth, year) <==> InSelection(RecordDate(r), selectedMonth, year)
  {
    assert Text.OccursAt(Text.IntToString(r.invoiceNo), Text.IntToString(r.invoiceNo), 0);
  }

  /** The derived total, `(weightKg || 0) * (rate || 0)`: an absent factor counts
      as 0. */
  function Total(d: SilageSaleDraft): real {
    d.weightKg.GetOr(0.0) * d.rate.GetOr(0.0)
  }

  /** A draft as saving leaves it: it has a date, its total is its derived total,
      and a paid amount that is 0 while the status is Pending. */
  predicate Consistent(d: SilageSaleDraft) {
    d.dateOfPerchase.Some? &&
    d.totalAmount == Some(Total(d)) &&
    d.paidAmount.Some? &&
    (d.paymentStatus == Some(Pending) ==> d.paidAmount == Some(0.0))
  }

  /** The record `handleSave` sends: the draft with its total recomputed, its paid
      amount 0 when the status is Pending and otherwise kept, or the total when
      absent (`??` keeps a 0), and its date defaulting to `now`; every other field
      as edited. Saving makes the draft consistent and leaves a consistent draft
      as it is. */
  function Saved(d: SilageSaleDraft, now: Stamp): (r: SilageSaleDraft)
    ensures Consistent(r)
    ensures r.(totalAmount := d.totalAmount, paidAmount := d.paidAmount, dateOfPerchase := d.dateOfPerchase) == d
    ensures d.dateOfPerchase.Some? ==> r.dateOfPerchase == d.dateOfPerchase
    ensures d.dateOfPerchase.None? ==> r.dateOfPerchase == Some(now)
    ensures d.paymentStatus != Some(Pending) && d.paidAmount.Some? ==> r.paidAmount == d.paidAmount
    ensures d.paymentStatus != Some(Pending) && d.paidAmount.None? ==> r.paidAmount == r.totalAmount
    ensures d.Complete() ==> r.Complete()
    ensures Consistent(d) ==> r == d
  {
    var total := Total(d);
    var r := d.(
      totalAmount := Some(total),
      paidAmount := Some(if d.paymentStatus == Some(Pending) then 0.0 else d.paidAmount.GetOr(total)),
      dateOfPerchase := Some(d.dateOfPerchase.GetOr(now)));
    assert Total(r) == total;
    r
  }

  /** Saving twice is saving once, whatever `now` is the second time. */
  lemma SaveIdempotent(d: SilageSaleDraft, now: Stamp, later: Stamp)
    ensures Saved(Saved(d, now), later) == Saved(d, now)
  {
  }

  /** `handleAddNew`'s draft: no id, the date set to now, status Pending, weight,
      rate and paid amount 0. Saving it adds a new record. */
  function NewDraft(now: Stamp): (r: SilageSaleDraft)
    ensures !Truthy(r.sNo)
    ensures r.dateOfPerchase == Some(now)
    ensures r.paymentStatus == Some(Pending)
    ensures r.weightKg == Some(0.0) && r.rate == Some(0.0) && r.paidAmount == Some(0.0)
  {
    SilageSaleDraft(None, None, None, Some(now), Some(0.0), Some(0.0), None, Some(Pending), Some(0.0), None, None)
  }

  /** A new record saved untouched has total 0 and paid amount 0. */
  lemma NewDraftSavesZero(now: Stamp, later: Stamp)
    ensures Saved(NewDraft(now), later).totalAmount == Some(0.0)
    ensures Saved(NewDraft(now), later).paidAmount == Some(0.0)
    ensures Saved(NewDraft(now), later).dateOfPerchase == Some(now)
  {
  }

  /** A new draft saved untouched and added to the store becomes a record with the
      fresh id and the draft's own values, not the generated defaults. */
  lemma NewRecordAsDrafted(now: Stamp, later: Stamp, defaults: SilageSale, id: int)
    ensures var r := Saved(NewDraft(now), later).Over(defaults, id);
      && r.sNo == id
      && r.dateOfPerchase == now && r.paymentStatus == Pending
      && r.weightKg == 0.0 && r.rate == 0.0 && r.totalAmount == 0.0 && r.paidAmount == 0.0
  {
  }

  /** The page's dialog state: the draft being edited (`null` when none) and
      whether the dialog is open. */
  class SilageSalesDialog {
    var current: Option<SilageSaleDraft>
    var dialogOpen: bool

    /** A draft that carries an id came from an existing record, so it is complete
        and the update's cast is sound. */
    predicate Valid()
      reads this
    {
      current.Some? && Truthy(current.value.sNo) ==> current.value.Complete()
    }

    constructor()
      ensures Valid()
      ensures current == None && !dialogOpen
    {
      current := None;
      dialogOpen := false;
    }

    /** `handleAddNew`: opens the dialog on the default draft. */
    method HandleAddNew(now: Stamp)
      modifies this
      ensures Valid()
      ensures current == Some(NewDraft(now)) && dialogOpen
    {
      current := Some(NewDraft(now));
      dialogOpen := true;
    }

    /** `handleEdit`: opens the dialog on the record itself. */
    method HandleEdit(sale: SilageSale)
      modifies this
      ensures Valid()
      ensures current == Some(sale.ToDraft()) && dialogOpen
    {
      current := Some(sale.ToDraft());
      dialogOpen := true;
    }

    /** `handleSave`: with no draft, nothing happens. Otherwise the saved draft
        replaces the store's records with its id when the draft has a truthy id,
        and is added in front (on top of the generated defaults, under the fresh
        id) when not; then the dialog closes and the draft is cleared. */
    method HandleSave(store: DataStore.Store, now: Stamp, defaults: SilageSale, id: int)
      requires Valid()
      modifies this, store`silageSales
      ensures Valid()
      ensures old(current).None? ==>
        store.silageSales == old(store.silageSales) && current == old(current) && dialogOpen == old(dialogOpen)
      ensures old(current).Some? && Truthy(old(current).value.sNo) ==>
        store.silageSales == Lists.Replace(old(store.silageSales), DataStore.SilageSaleId, Saved(old(current).value, now).ToRecord())
      ensures old(current).Some? && !Truthy(old(current).value.sNo) ==>
        store.silageSales == [Saved(old(current).value, now).Over(defaults, id)] + old(store.silageSales)
      ensures old(current).Some? ==> current.None? && !dialogOpen
    {
      if current.Some? {
        var saved := Saved(current.value, now);
        if Truthy(current.value.sNo) {
          store.UpdateSilageSale(saved.ToRecord());
        } else {
          store.AddSilageSale(saved, defaults, id);
        }
        dialogOpen := false;
        current := None;
      }
    }

    /** `handleDelete`: deletes the records with that id when the user confirms,
        and does nothing otherwise. */
    method HandleDelete(store: DataStore.Store, sNo: int, confirmed: bool)
      modifies store`silageSales
      ensures confirmed ==> store.silageSales == Lists.Remove(old(store.silageSales), DataStore.SilageSaleId, sNo)
      ensures !confirmed ==> store.silageSales == old(store.silageSales)
    {
      if confirmed {
        store.DeleteSilageSale(sNo);
      }
    }
  }
}
