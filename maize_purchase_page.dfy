/** The Maize Purchase page: the list it shows for the selected period and search
    term, and the dialog that adds, edits and deletes records. */
module MaizePurchasePage {
  import opened Common
  import opened Periods
  import opened Records
  import Text
  import Lists
  import DataStore
  import DashboardStats

  function RecordDate(r: MaizePurchase): Stamp { r.dateOfPurchase }

  /** The search part of the list filter: the term, lower-cased, occurs in the
      lower-cased nameOfFarmer. */
  predicate MatchesSearch(r: MaizePurchase, term: string) {
    Text.Contains(Text.ToLower(r.nameOfFarmer), Text.ToLower(term))
  }

  /** A record is listed when it is dated in the selected period and matches the
      search. */
  predicate Listed(r: MaizePurchase, term: string, selectedMonth: SelectedMonth, year: int) {
    InSelection(RecordDate(r), selectedMonth, year) && MatchesSearch(r, term)
  }

  function ListedBy(term: string, selectedMonth: SelectedMonth, year: int): MaizePurchase -> bool {
    r => Listed(r, term, selectedMonth, year)
  }

  /** The page's filtered list: the listed records, in store order. */
  function FilteredList(rs: seq<MaizePurchase>, term: string, selectedMonth: SelectedMonth, year: int): (r: seq<MaizePurchase>)
    ensures |r| <= |rs|
    ensures forall x :: x in r <==> x in rs && Listed(x, term, selectedMonth, year)
    ensures forall x :: multiset(r)[x] == if Listed(x, term, selectedMonth, year) then multiset(rs)[x] else 0
  {
    Lists.FilterCount(rs, ListedBy(term, selectedMonth, year));
    Lists.Filter(rs, ListedBy(term, selectedMonth, year))
  }

  /** The list keeps store order: the listed records of a store made of two parts
      are those of the first part, then those of the second. */
  lemma FilteredListKeepsOrder(a: seq<MaizePurchase>, b: seq<MaizePurchase>, term: string, selectedMonth: SelectedMonth, year: int)
    ensures FilteredList(a + b, term, selectedMonth, year)
         == FilteredList(a, term, selectedMonth, year) + FilteredList(b, term, selectedMonth, year)
  {
    Lists.FilterAppend(a, b, ListedBy(term, selectedMonth, year));
  }

  /** With an empty search box the page lists exactly the records of the period
      the dashboard cards sum. */
  lemma {:induction false} EmptySearchListsPeriod(rs: seq<MaizePurchase>, selectedMonth: SelectedMonth, year: int)
    ensures FilteredList(rs, "", selectedMonth, year)
         == InPeriodRecords(rs, RecordDate, DashboardStats.CurrentPeriod(selectedMonth, year))
  {
    forall x: MaizePurchase
      ensures ListedBy("", selectedMonth, year)(x)
           == DatedIn(RecordDate, DashboardStats.CurrentPeriod(selectedMonth, year))(x)
    {
      Text.EmptyOccursEverywhere(Text.ToLower(x.nameOfFarmer));
    }
    Lists.FilterSameTest(rs, ListedBy("", selectedMonth, year),
      DatedIn(RecordDate, DashboardStats.CurrentPeriod(selectedMonth, year)));
  }

  /** Searching for a record's own nameOfFarmer finds it whenever its date is in
      the selected period. */
  lemma FoundByOwnName(r: MaizePurchase, selectedMonth: SelectedMonth, year: int)
    ensures Listed(r, r.nameOfFarmer, selectedMonth, year) <==> InSelection(RecordDate(r), selectedMonth, year)
  {
    assert Text.OccursAt(Text.ToLower(r.nameOfFarmer), Text.ToLower(r.nameOfFarmer), 0);
  }

  /** The derived total, `(weightKg || 0) * (rateMaize || 0)`: an absent factor
      counts as 0. */
  function Total(d: MaizePurchaseDraft): real {
    d.weightKg.GetOr(0.0) * d.rateMaize.GetOr(0.0)
  }

  /** A draft as saving leaves it: it has a date, its total is its derived total. */
  predicate Consistent(d: MaizePurchaseDraft) {
    d.dateOfPurchase.Some? &&
    d.totalAmount == Some(Total(d))
  }

  /** The record `handleSave` sends: the draft with its total recomputed, and its
      date defaulting to `now`; every other field as edited. Saving makes the
      draft consistent and leaves a consistent draft as it is. */
  function Saved(d: MaizePurchaseDraft, now: Stamp): (r: MaizePurchaseDraft)
    ensures Consistent(r)
    ensures r.(totalAmount := d.totalAmount, dateOfPurchase := d.dateOfPurchase) == d
    ensures d.dateOfPurchase.Some? ==> r.dateOfPurchase == d.dateOfPurchase
    ensures d.dateOfPurchase.None? ==> r.dateOfPurchase == Some(now)
    ensures d.Complete() ==> r.Complete()
    ensures Consistent(d) ==> r == d
  {
    var total := Total(d);
    var r := d.(
      totalAmount := Some(total),
      dateOfPurchase := Some(d.dateOfPurchase.GetOr(now)));
    assert Total(r) == total;
    r
  }

  /** Saving twice is saving once, whatever `now` is the second time. */
  lemma SaveIdempotent(d: MaizePurchaseDraft, now: Stamp, later: Stamp)
    ensures Saved(Saved(d, now), later) == Saved(d, now)
  {
  }

  /** `handleAddNew`'s draft: no id, the date set to now, status Pending, weight
      and rate 0. Saving it adds a new record. */
  function NewDraft(now: Stamp): (r: MaizePurchaseDraft)
    ensures !Truthy(r.sNo)
    ensures r.dateOfPurchase == Some(now)
    ensures r.paymentStatus == Some(Pending)
    ensures r.weightKg == Some(0.0) && r.rateMaize == Some(0.0)
  {
    MaizePurchaseDraft(None, None, Some(now), None, Some(0.0), Some(0.0), None, Some(Pending))
  }

  /** A new record saved untouched has total 0. */
  lemma NewDraftSavesZero(now: Stamp, later: Stamp)
    ensures Saved(NewDraft(now), later).totalAmount == Some(0.0)
    ensures Saved(NewDraft(now), later).dateOfPurchase == Some(now)
  {
  }

  /** A new draft saved untouched and added to the store becomes a record with the
      fresh id and the draft's own values, not the generated defaults. */
  lemma NewRecordAsDrafted(now: Stamp, later: Stamp, defaults: MaizePurchase, id: int)
    ensures var r := Saved(NewDraft(now), later).Over(defaults, id);
      && r.sNo == id
      && r.dateOfPurchase == now && r.paymentStatus == Pending
      && r.weightKg == 0.0 && r.rateMaize == 0.0 && r.totalAmount == 0.0
  {
  }

  /** The page's dialog state: the draft being edited (`null` when none) and
      whether the dialog is open. */
  class MaizePurchaseDialog {
    var current: Option<MaizePurchaseDraft>
    var dialogOpen: bool

    /** A draft that carries an id came from an existing record, so it is complete
        and the update's cast is sound. */
    predicate Valid()
      reads this
    {
      current.Some? && Truthy(current.value.sNo) ==> current.value.Complete()
    }

    constructor()
      ensures Valid()
      ensures current == None && !dialogOpen
    {
      current := None;
      dialogOpen := false;
    }

    /** `handleAddNew`: opens the dialog on the default draft. */
    method HandleAddNew(now: Stamp)
      modifies this
      ensures Valid()
      ensures current == Some(NewDraft(now)) && dialogOpen
    {
      current := Some(NewDraft(now));
      dialogOpen := true;
    }

    /** `handleEdit`: opens the dialog on the record itself. */
    method HandleEdit(purchase: MaizePurchase)
      modifies this
      ensures Valid()
      ensures current == Some(purchase.ToDraft()) && dialogOpen
    {
      current := Some(purchase.ToDraft());
      dialogOpen := true;
    }

    /** `handleSave`: with no draft, nothing happens. Otherwise the saved draft
        replaces the store's records with its id when the draft has a truthy id,
        and is added in front (on top of the generated defaults, under the fresh
        id) when not; then the dialog closes and the draft is cleared. */
    method HandleSave(store: DataStore.Store, now: Stamp, defaults: MaizePurchase, id: int)
      requires Valid()
      modifies this, store`maizePurchases
      ensures Valid()
      ensures old(current).None? ==>
        store.maizePurchases == old(store.maizePurchases) && current == old(current) && dialogOpen == old(dialogOpen)
      ensures old(current).Some? && Truthy(old(current).value.sNo) ==>
        store.maizePurchases == Lists.Replace(old(store.maizePurchases), DataStore.MaizePurchaseId, Saved(old(current).value, now).ToRecord())
      ensures old(current).Some? && !Truthy(old(current).value.sNo) ==>
        store.maizePurchases == [Saved(old(current).value, now).Over(defaults, id)] + old(store.maizePurchases)
      ensures old(current).Some? ==> current.None? && !dialogOpen
    {
      if current.Some? {
        var saved := Saved(current.value, now);
        if Truthy(current.value.sNo) {
          store.UpdateMaizePurchase(saved.ToRecord());
        } else {
          store.AddMaizePurchase(saved, defaults, id);
        }
        dialogOpen := false;
        current := None;
      }
    }

    /** `handleDelete`: deletes the records with that id when the user confirms,
        and does nothing otherwise. */
    method HandleDelete(store: DataStore.Store, sNo: int, confirmed: bool)
      modifies store`maizePurchases
      ensures confirmed ==> store.maizePurchases == Lists.Remove(old(store.maizePurchases), DataStore.MaizePurchaseId, sNo)
      ensures !confirmed ==> store.maizePurchases == old(store.maizePurchases)
    {
      if confirmed {
        store.DeleteMaizePurchase(sNo);
      }
    }
  }
}
