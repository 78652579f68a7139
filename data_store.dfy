/** The in-memory record store (`DataProvider`): six collections, each with
    add, update and delete. Every operation replaces one collection with a
    new list built by a prepend, a by-id `map` or a by-id `filter`, and its
    frame names that collection alone, so the other five are untouched. */
module DataStore {
  import opened Records
  import Lists
  function SilageSaleId(r: SilageSale): int { r.sNo }
  function MaizePurchaseId(r: MaizePurchase): int { r.sNo }
  function OtherExpenseId(r: OtherExpense): int { r.sNo }
  function SoybeanPurchaseId(r: SoybeanPurchase): int { r.sNo }
  function SoybeanSaleId(r: SoybeanSale): int { r.sNo }
  function PurchaseId(r: Purchase): int { r.sNo }
  class Store {
    var silageSales: seq<SilageSale>
    var maizePurchases: seq<MaizePurchase>
    var otherExpenses: seq<OtherExpense>
    var soybeanPurchases: seq<SoybeanPurchase>
    var soybeanSales: seq<SoybeanSale>
    var purchases: seq<Purchase>

    /** The provider starts from the given lists (the generated mock data). */
    constructor (silageSales0: seq<SilageSale>, maizePurchases0: seq<MaizePurchase>, otherExpenses0: seq<OtherExpense>, soybeanPurchases0: seq<SoybeanPurchase>, soybeanSales0: seq<SoybeanSale>, purchases0: seq<Purchase>)
      ensures silageSales == silageSales0
      ensures maizePurchases == maizePurchases0
      ensures otherExpenses == otherExpenses0
      ensures soybeanPurchases == soybeanPurchases0
      ensures soybeanSales == soybeanSales0
      ensures purchases == purchases0
    {
      silageSales := silageSales0;
      maizePurchases := maizePurchases0;
      otherExpenses := otherExpenses0;
      soybeanPurchases := soybeanPurchases0;
      soybeanSales := soybeanSales0;
      purchases := purchases0;
    }

    /** `addSilageSale`: the draft laid over the generated defaults, with the fresh
        id `id` (`Date.now()`), goes in front of the old list. */
    method AddSilageSale(sale: SilageSaleDraft, defaults: SilageSale, id: int)
      modifies this`silageSales
      ensures silageSales == [sale.Over(defaults, id)] + old(silageSales)
      ensures |silageSales| == |old(silageSales)| + 1 && silageSales[0].sNo == id && silageSales[1..] == old(silageSales)
    {
      silageSales := [sale.Over(defaults, id)] + silageSales;
    }

    /** `updateSilageSale`: every record carrying the id of `sale` becomes `sale`. */
    method UpdateSilageSale(sale: SilageSale)
      modifies this`silageSales
      ensures silageSales == Lists.Replace(old(silageSales), SilageSaleId, sale)
    {
      silageSales := Lists.Replace(silageSales, SilageSaleId, sale);
    }

    /** `deleteSilageSale`: the records carrying `id` are filtered out. */
    method DeleteSilageSale(id: int)
      modifies this`silageSales
      ensures silageSales == Lists.Remove(old(silageSales), SilageSaleId, id)
      ensures forall r :: r in silageSales ==> r.sNo != id
    {
      silageSales := Lists.Remove(silageSales, SilageSaleId, id);
    }

    /** `addMaizePurchase`: the draft laid over the generated defaults, with the fresh
        id `id` (`Date.now()`), goes in front of the old list. */
    method AddMaizePurchase(purchase: MaizePurchaseDraft, defaults: MaizePurchase, id: int)
      modifies this`maizePurchases
      ensures maizePurchases == [purchase.Over(defaults, id)] + old(maizePurchases)
      ensures |maizePurchases| == |old(maizePurchases)| + 1 && maizePurchases[0].sNo == id && maizePurchases[1..] == old(maizePurchases)
    {
      maizePurchases := [purchase.Over(defaults, id)] + maizePurchases;
    }

    /** `updateMaizePurchase`: every record carrying the id of `purchase` becomes `purchase`. */
    method UpdateMaizePurchase(purchase: MaizePurchase)
      modifies this`maizePurchases
      ensures maizePurchases == Lists.Replace(old(maizePurchases), MaizePurchaseId, purchase)
    {
      maizePurchases := Lists.Replace(maizePurchases, MaizePurchaseId, purchase);
    }

    /** `deleteMaizePurchase`: the records carrying `id` are filtered out. */
    method DeleteMaizePurchase(id: int)
      modifies this`maizePurchases
      ensures maizePurchases == Lists.Remove(old(maizePurchases), MaizePurchaseId, id)
      ensures forall r :: r in maizePurchases ==> r.sNo != id
    {
      maizePurchases := Lists.Remove(maizePurchases, MaizePurchaseId, id);
    }

    /** `addOtherExpense`: the draft laid over the generated defaults, with the fresh
        id `id` (`Date.now()`), goes in front of the old list. */
    method AddOtherExpense(expense: OtherExpenseDraft, defaults: OtherExpense, id: int)
      modifies this`otherExpenses
      ensures otherExpenses == [expense.Over(defaults, id)] + old(otherExpenses)
      ensures |otherExpenses| == |old(otherExpenses)| + 1 && otherExpenses[0].sNo == id && otherExpenses[1..] == old(otherExpenses)
    {
      otherExpenses := [expense.Over(defaults, id)] + otherExpenses;
    }

    /** `updateOtherExpense`: every record carrying the id of `expense` becomes `expense`. */
    method UpdateOtherExpense(expense: OtherExpense)
      modifies this`otherExpenses
      ensures otherExpenses == Lists.Replace(old(otherExpenses), OtherExpenseId, expense)
    {
      otherExpenses := Lists.Replace(otherExpenses, OtherExpenseId, expense);
    }

    /** `deleteOtherExpense`: the records carrying `id` are filtered out. */
    method DeleteOtherExpense(id: int)
      modifies this`otherExpenses
      ensures otherExpenses == Lists.Remove(old(otherExpenses), OtherExpenseId, id)
      ensures forall r :: r in otherExpenses ==> r.sNo != id
    {
      otherExpenses := Lists.Remove(otherExpenses, OtherExpenseId, id);
    }

    /** `addSoybeanPurchase`: the draft laid over the generated defaults, with the fresh
        id `id` (`Date.now()`), goes in front of the old list. */
    method AddSoybeanPurchase(purchase: SoybeanPurchaseDraft, defaults: SoybeanPurchase, id: int)
      modifies this`soybeanPurchases
      ensures soybeanPurchases == [purchase.Over(defaults, id)] + old(soybeanPurchases)
      ensures |soybeanPurchases| == |old(soybeanPurchases)| + 1 && soybeanPurchases[0].sNo == id && soybeanPurchases[1..] == old(soybeanPurchases)
    {
      soybeanPurchases := [purchase.Over(defaults, id)] + soybeanPurchases;
    }

    /** `updateSoybeanPurchase`: every record carrying the id of `purchase` becomes `purchase`. */
    method UpdateSoybeanPurchase(purchase: SoybeanPurchase)
      modifies this`soybeanPurchases
      ensures soybeanPurchases == Lists.Replace(old(soybeanPurchases), SoybeanPurchaseId, purchase)
    {
      soybeanPurchases := Lists.Replace(soybeanPurchases, SoybeanPurchaseId, purchase);
    }

    /** `deleteSoybeanPurchase`: the records carrying `id` are filtered out. */
    method DeleteSoybeanPurchase(id: int)
      modifies this`soybeanPurchases
      ensures soybeanPurchases == Lists.Remove(old(soybeanPurchases), SoybeanPurchaseId, id)
      ensures forall r :: r in soybeanPurchases ==> r.sNo != id
    {
      soybeanPurchases := Lists.Remove(soybeanPurchases, SoybeanPurchaseId, id);
    }

    /** `addSoybeanSale`: the draft laid over the generated defaults, with the fresh
        id `id` (`Date.now()`), goes in front of the old list. */
    method AddSoybeanSale(sale: SoybeanSaleDraft, defaults: SoybeanSale, id: int)
      modifies this`soybeanSales
      ensures soybeanSales == [sale.Over(defaults, id)] + old(soybeanSales)
      ensures |soybeanSales| == |old(soybeanSales)| + 1 && soybeanSales[0].sNo == id && soybeanSales[1..] == old(soybeanSales)
    {
      soybeanSales := [sale.Over(defaults, id)] + soybeanSales;
    }

    /** `updateSoybeanSale`: every record carrying the id of `sale` becomes `sale`. */
    method UpdateSoybeanSale(sale: SoybeanSale)
      modifies this`soybeanSales
      ensures soybeanSales == Lists.Replace(old(soybeanSales), SoybeanSaleId, sale)
    {
      soybeanSales := Lists.Replace(soybeanSales, SoybeanSaleId, sale);
    }

    /** `deleteSoybeanSale`: the records carrying `id` are filtered out. */
    method DeleteSoybeanSale(id: int)
      modifies this`soybeanSales
      ensures soybeanSales == Lists.Remove(old(soybeanSales), SoybeanSaleId, id)
      ensures forall r :: r in soybeanSales ==> r.sNo != id
    {
      soybeanSales := Lists.Remove(soybeanSales, SoybeanSaleId, id);
    }

    /** `addPurchase`: the draft laid over the generated defaults, with the fresh
        id `id` (`Date.now()`), goes in front of the old list. */
    method AddPurchase(purchase: PurchaseDraft, defaults: Purchase, id: int)
      modifies this`purchases
      ensures purchases == [purchase.Over(defaults, id)] + old(purchases)
      ensures |purchases| == |old(purchases)| + 1 && purchases[0].sNo == id && purchases[1..] == old(purchases)
    {
      purchases := [purchase.Over(defaults, id)] + purchases;
    }

    /** `updatePurchase`: every record carrying the id of `purchase` becomes `purchase`. */
    method UpdatePurchase(purchase: Purchase)
      modifies this`purchases
      ensures purchases == Lists.Replace(old(purchases), PurchaseId, purchase)
    {
      purchases := Lists.Replace(purchases, PurchaseId, purchase);
    }

    /** `deletePurchase`: the records carrying `id` are filtered out. */
    method DeletePurchase(id: int)
      modifies this`purchases
      ensures purchases == Lists.Remove(old(purchases), PurchaseId, id)
      ensures forall r :: r in purchases ==> r.sNo != id
    {
      purchases := Lists.Remove(purchases, PurchaseId, id);
    }
  }
}
