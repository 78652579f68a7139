/** The six record kinds of the bookkeeping store, and their drafts: the
    `Partial<...>` objects the pages edit, in which any field may be absent. */
module Records {
  import opened Common

  /** The union of every kind's status; silage sales use Pending, Cash and
      Online, the other kinds with a status use Paid and Pending. */
  datatype PaymentStatus = Pending | Cash | Online | Paid

  datatype SilageSale = SilageSale(
    sNo: int, nameOfBuyer: string, mobNo: string, dateOfPerchase: Stamp,
    weightKg: real, rate: real, totalAmount: real, paymentStatus: PaymentStatus,
    paidAmount: real, invoiceNo: int, address: string)
  {
    function ToDraft(): (d: SilageSaleDraft)
      ensures d.Complete() && d.ToRecord() == this
    {
      SilageSaleDraft(Some(sNo), Some(nameOfBuyer), Some(mobNo), Some(dateOfPerchase),
        Some(weightKg), Some(rate), Some(totalAmount), Some(paymentStatus),
        Some(paidAmount), Some(invoiceNo), Some(address))
    }
  }

  datatype SilageSaleDraft = SilageSaleDraft(
    sNo: Option<int>, nameOfBuyer: Option<string>, mobNo: Option<string>, dateOfPerchase: Option<Stamp>,
    weightKg: Option<real>, rate: Option<real>, totalAmount: Option<real>, paymentStatus: Option<PaymentStatus>,
    paidAmount: Option<real>, invoiceNo: Option<int>, address: Option<string>)
  {
    /** Every field is present, so the draft can stand for a full record. */
    predicate Complete() {
      sNo.Some? && nameOfBuyer.Some? && mobNo.Some? && dateOfPerchase.Some? && weightKg.Some? &&
      rate.Some? && totalAmount.Some? && paymentStatus.Some? && paidAmount.Some? &&
      invoiceNo.Some? && address.Some?
    }

    /** The cast `draft as SilageSale` of a complete draft. */
    function ToRecord(): SilageSale
      requires Complete()
    {
      SilageSale(sNo.value, nameOfBuyer.value, mobNo.value, dateOfPerchase.value, weightKg.value,
        rate.value, totalAmount.value, paymentStatus.value, paidAmount.value, invoiceNo.value, address.value)
    }

    /** `{ ...defaults, ...this, S_NO: id }`: every present field overrides the
        default, and the id is always `id`. */
    function Over(defaults: SilageSale, id: int): (r: SilageSale)
      ensures r.sNo == id
      ensures Complete() ==> r == ToRecord().(sNo := id)
      ensures nameOfBuyer.Some? ==> r.nameOfBuyer == nameOfBuyer.value
      ensures nameOfBuyer.None? ==> r.nameOfBuyer == defaults.nameOfBuyer
      ensures mobNo.Some? ==> r.mobNo == mobNo.value
      ensures mobNo.None? ==> r.mobNo == defaults.mobNo
      ensures dateOfPerchase.Some? ==> r.dateOfPerchase == dateOfPerchase.value
      ensures dateOfPerchase.None? ==> r.dateOfPerchase == defaults.dateOfPerchase
      ensures weightKg.Some? ==> r.weightKg == weightKg.value
      ensures weightKg.None? ==> r.weightKg == defaults.weightKg
      ensures rate.Some? ==> r.rate == rate.value
      ensures rate.None? ==> r.rate == defaults.rate
      ensures totalAmount.Some? ==> r.totalAmount == totalAmount.value
      ensures totalAmount.None? ==> r.totalAmount == defaults.totalAmount
      ensures paymentStatus.Some? ==> r.paymentStatus == paymentStatus.value
      ensures paymentStatus.None? ==> r.paymentStatus == defaults.paymentStatus
      ensures paidAmount.Some? ==> r.paidAmount == paidAmount.value
      ensures paidAmount.None? ==> r.paidAmount == defaults.paidAmount
      ensures invoiceNo.Some? ==> r.invoiceNo == invoiceNo.value
      ensures invoiceNo.None? ==> r.invoiceNo == defaults.invoiceNo
      ensures address.Some? ==> r.address == address.value
      ensures address.None? ==> r.address == defaults.address
    {
      SilageSale(id, nameOfBuyer.GetOr(defaults.nameOfBuyer), mobNo.GetOr(defaults.mobNo),
        dateOfPerchase.GetOr(defaults.dateOfPerchase), weightKg.GetOr(defaults.weightKg),
        rate.GetOr(defaults.rate), totalAmount.GetOr(defaults.totalAmount),
        paymentStatus.GetOr(defaults.paymentStatus), paidAmount.GetOr(defaults.paidAmount),
        invoiceNo.GetOr(defaults.invoiceNo), address.GetOr(defaults.address))
    }
  }

  datatype Purchase = Purchase(
    sNo: int, nameOfSeller: string, moNo: string, purchaseDate: Stamp, product: string, amount: real)
  {
    function ToDraft(): (d: PurchaseDraft)
      ensures d.Complete() && d.ToRecord() == this
    {
      PurchaseDraft(Some(sNo), Some(nameOfSeller), Some(moNo), Some(purchaseDate), Some(product), Some(amount))
    }
  }

  datatype PurchaseDraft = PurchaseDraft(
    sNo: Option<int>, nameOfSeller: Option<string>, moNo: Option<string>, purchaseDate: Option<Stamp>,
    product: Option<string>, amount: Option<real>)
  {
    predicate Complete() {
      sNo.Some? && nameOfSeller.Some? && moNo.Some? && purchaseDate.Some? && product.Some? && amount.Some?
    }

    function ToRecord(): Purchase
      requires Complete()
    {
      Purchase(sNo.value, nameOfSeller.value, moNo.value, purchaseDate.value, product.value, amount.value)
    }

    function Over(defaults: Purchase, id: int): (r: Purchase)
      ensures r.sNo == id
      ensures Complete() ==> r == ToRecord().(sNo := id)
      ensures nameOfSeller.Some? ==> r.nameOfSeller == nameOfSeller.value
      ensures nameOfSeller.None? ==> r.nameOfSeller == defaults.nameOfSeller
      ensures moNo.Some? ==> r.moNo == moNo.value
      ensures moNo.None? ==> r.moNo == defaults.moNo
      ensures purchaseDate.Some? ==> r.purchaseDate == purchaseDate.value
      ensures purchaseDate.None? ==> r.purchaseDate == defaults.purchaseDate
      ensures product.Some? ==> r.product == product.value
      ensures product.None? ==> r.product == defaults.product
      ensures amount.Some? ==> r.amount == amount.value
      ensures amount.None? ==> r.amount == defaults.amount
    {
      Purchase(id, nameOfSeller.GetOr(defaults.nameOfSeller), moNo.GetOr(defaults.moNo),
        purchaseDate.GetOr(defaults.purchaseDate), product.GetOr(defaults.product), amount.GetOr(defaults.amount))
    }
  }

  datatype MaizePurchase = MaizePurchase(
    sNo: int, nameOfFarmer: string, dateOfPurchase: Stamp, address: string,
    weightKg: real, rateMaize: real, totalAmount: real, paymentStatus: PaymentStatus)
  {
    function ToDraft(): (d: MaizePurchaseDraft)
      ensures d.Complete() && d.ToRecord() == this
    {
      MaizePurchaseDraft(Some(sNo), Some(nameOfFarmer), Some(dateOfPurchase), Some(address),
        Some(weightKg), Some(rateMaize), Some(totalAmount), Some(paymentStatus))
    }
  }

  datatype MaizePurchaseDraft = MaizePurchaseDraft(
    sNo: Option<int>, nameOfFarmer: Option<string>, dateOfPurchase: Option<Stamp>, address: Option<string>,
    weightKg: Option<real>, rateMaize: Option<real>, totalAmount: Option<real>, paymentStatus: Option<PaymentStatus>)
  {
    predicate Complete() {
      sNo.Some? && nameOfFarmer.Some? && dateOfPurchase.Some? && address.Some? && weightKg.Some? &&
      rateMaize.Some? && totalAmount.Some? && paymentStatus.Some?
    }

    function ToRecord(): MaizePurchase
      requires Complete()
    {
      MaizePurchase(sNo.value, nameOfFarmer.value, dateOfPurchase.value, address.value, weightKg.value,
        rateMaize.value, totalAmount.value, paymentStatus.value)
    }

    function Over(defaults: MaizePurchase, id: int): (r: MaizePurchase)
      ensures r.sNo == id
      ensures Complete() ==> r == ToRecord().(sNo := id)
      ensures nameOfFarmer.Some? ==> r.nameOfFarmer == nameOfFarmer.value
      ensures nameOfFarmer.None? ==> r.nameOfFarmer == defaults.nameOfFarmer
      ensures dateOfPurchase.Some? ==> r.dateOfPurchase == dateOfPurchase.value
      ensures dateOfPurchase.None? ==> r.dateOfPurchase == defaults.dateOfPurchase
      ensures address.Some? ==> r.address == address.value
      ensures address.None? ==> r.address == defaults.address
      ensures weightKg.Some? ==> r.weightKg == weightKg.value
      ensures weightKg.None? ==> r.weightKg == defaults.weightKg
      ensures rateMaize.Some? ==> r.rateMaize == rateMaize.value
      ensures rateMaize.None? ==> r.rateMaize == defaults.rateMaize
      ensures totalAmount.Some? ==> r.totalAmount == totalAmount.value
      ensures totalAmount.None? ==> r.totalAmount == defaults.totalAmount
      ensures paymentStatus.Some? ==> r.paymentStatus == paymentStatus.value
      ensures paymentStatus.None? ==> r.paymentStatus == defaults.paymentStatus
    {
      MaizePurchase(id, nameOfFarmer.GetOr(defaults.nameOfFarmer), dateOfPurchase.GetOr(defaults.dateOfPurchase),
        address.GetOr(defaults.address), weightKg.GetOr(defaults.weightKg), rateMaize.GetOr(defaults.rateMaize),
        totalAmount.GetOr(defaults.totalAmount), paymentStatus.GetOr(defaults.paymentStatus))
    }
  }

  datatype OtherExpense = OtherExpense(sNo: int, expenseName: string, dateOfExpenses: Stamp, amount: real)
  {
    function ToDraft(): (d: OtherExpenseDraft)
      ensures d.Complete() && d.ToRecord() == this
    {
      OtherExpenseDraft(Some(sNo), Some(expenseName), Some(dateOfExpenses), Some(amount))
    }
  }

  datatype OtherExpenseDraft = OtherExpenseDraft(
    sNo: Option<int>, expenseName: Option<string>, dateOfExpenses: Option<Stamp>, amount: Option<real>)
  {
    predicate Complete() {
      sNo.Some? && expenseName.Some? && dateOfExpenses.Some? && amount.Some?
    }

    function ToRecord(): OtherExpense
      requires Complete()
    {
      OtherExpense(sNo.value, expenseName.value, dateOfExpenses.value, amount.value)
    }

    function Over(defaults: OtherExpense, id: int): (r: OtherExpense)
      ensures r.sNo == id
      ensures Complete() ==> r == ToRecord().(sNo := id)
      ensures expenseName.Some? ==> r.expenseName == expenseName.value
      ensures expenseName.None? ==> r.expenseName == defaults.expenseName
      ensures dateOfExpenses.Some? ==> r.dateOfExpenses == dateOfExpenses.value
      ensures dateOfExpenses.None? ==> r.dateOfExpenses == defaults.dateOfExpenses
      ensures amount.Some? ==> r.amount == amount.value
      ensures amount.None? ==> r.amount == defaults.amount
    {
      OtherExpense(id, expenseName.GetOr(defaults.expenseName), dateOfExpenses.GetOr(defaults.dateOfExpenses),
        amount.GetOr(defaults.amount))
    }
  }

  datatype SoybeanPurchase = SoybeanPurchase(
    sNo: int, nameOfSaler: string, dateOfPurchase: Stamp, weightQuintal: real, rate: real,
    totalPrice: real, paymentStatus: PaymentStatus)
  {
    function ToDraft(): (d: SoybeanPurchaseDraft)
      ensures d.Complete() && d.ToRecord() == this
    {
      SoybeanPurchaseDraft(Some(sNo), Some(nameOfSaler), Some(dateOfPurchase), Some(weightQuintal),
        Some(rate), Some(totalPrice), Some(paymentStatus))
    }
  }

  datatype SoybeanPurchaseDraft = SoybeanPurchaseDraft(
    sNo: Option<int>, nameOfSaler: Option<string>, dateOfPurchase: Option<Stamp>, weightQuintal: Option<real>,
    rate: Option<real>, totalPrice: Option<real>, paymentStatus: Option<PaymentStatus>)
  {
    predicate Complete() {
      sNo.Some? && nameOfSaler.Some? && dateOfPurchase.Some? && weightQuintal.Some? && rate.Some? &&
      totalPrice.Some? && paymentStatus.Some?
    }

    function ToRecord(): SoybeanPurchase
      requires Complete()
    {
      SoybeanPurchase(sNo.value, nameOfSaler.value, dateOfPurchase.value, weightQuintal.value, rate.value,
        totalPrice.value, paymentStatus.value)
    }

    function Over(defaults: SoybeanPurchase, id: int): (r: SoybeanPurchase)
      ensures r.sNo == id
      ensures Complete() ==> r == ToRecord().(sNo := id)
      ensures nameOfSaler.Some? ==> r.nameOfSaler == nameOfSaler.value
      ensures nameOfSaler.None? ==> r.nameOfSaler == defaults.nameOfSaler
      ensures dateOfPurchase.Some? ==> r.dateOfPurchase == dateOfPurchase.value
      ensures dateOfPurchase.None? ==> r.dateOfPurchase == defaults.dateOfPurchase
      ensures weightQuintal.Some? ==> r.weightQuintal == weightQuintal.value
      ensures weightQuintal.None? ==> r.weightQuintal == defaults.weightQuintal
      ensures rate.Some? ==> r.rate == rate.value
      ensures rate.None? ==> r.rate == defaults.rate
      ensures totalPrice.Some? ==> r.totalPrice == totalPrice.value
      ensures totalPrice.None? ==> r.totalPrice == defaults.totalPrice
      ensures paymentStatus.Some? ==> r.paymentStatus == paymentStatus.value
      ensures paymentStatus.None? ==> r.paymentStatus == defaults.paymentStatus
    {
      SoybeanPurchase(id, nameOfSaler.GetOr(defaults.nameOfSaler), dateOfPurchase.GetOr(defaults.dateOfPurchase),
        weightQuintal.GetOr(defaults.weightQuintal), rate.GetOr(defaults.rate),
        totalPrice.GetOr(defaults.totalPrice), paymentStatus.GetOr(defaults.paymentStatus))
    }
  }

  datatype SoybeanSale = SoybeanSale(
    sNo: int, nameOfBuyer: string, dateOfSale: Stamp, quantity: real, rate: real,
    totalPrice: real, paymentStatus: PaymentStatus)
  {
    function ToDraft(): (d: SoybeanSaleDraft)
      ensures d.Complete() && d.ToRecord() == this
    {
      SoybeanSaleDraft(Some(sNo), Some(nameOfBuyer), Some(dateOfSale), Some(quantity), Some(rate),
        Some(totalPrice), Some(paymentStatus))
    }
  }

  datatype SoybeanSaleDraft = SoybeanSaleDraft(
    sNo: Option<int>, nameOfBuyer: Option<string>, dateOfSale: Option<Stamp>, quantity: Option<real>,
    rate: Option<real>, totalPrice: Option<real>, paymentStatus: Option<PaymentStatus>)
  {
    predicate Complete() {
      sNo.Some? && nameOfBuyer.Some? && dateOfSale.Some? && quantity.Some? && rate.Some? &&
      totalPrice.Some? && paymentStatus.Some?
    }

    function ToRecord(): SoybeanSale
      requires Complete()
    {
      SoybeanSale(sNo.value, nameOfBuyer.value, dateOfSale.value, quantity.value, rate.value,
        totalPrice.value, paymentStatus.value)
    }

    function Over(defaults: SoybeanSale, id: int): (r: SoybeanSale)
      ensures r.sNo == id
      ensures Complete() ==> r == ToRecord().(sNo := id)
      ensures nameOfBuyer.Some? ==> r.nameOfBuyer == nameOfBuyer.value
      ensures nameOfBuyer.None? ==> r.nameOfBuyer == defaults.nameOfBuyer
      ensures dateOfSale.Some? ==> r.dateOfSale == dateOfSale.value
      ensures dateOfSale.None? ==> r.dateOfSale == defaults.dateOfSale
      ensures quantity.Some? ==> r.quantity == quantity.value
      ensures quantity.None? ==> r.quantity == defaults.quantity
      ensures rate.Some? ==> r.rate == rate.value
      ensures rate.None? ==> r.rate == defaults.rate
      ensures totalPrice.Some? ==> r.totalPrice == totalPrice.value
      ensures totalPrice.None? ==> r.totalPrice == defaults.totalPrice
      ensures paymentStatus.Some? ==> r.paymentStatus == paymentStatus.value
      ensures paymentStatus.None? ==> r.paymentStatus == defaults.paymentStatus
    {
      SoybeanSale(id, nameOfBuyer.GetOr(defaults.nameOfBuyer), dateOfSale.GetOr(defaults.dateOfSale),
        quantity.GetOr(defaults.quantity), rate.GetOr(defaults.rate), totalPrice.GetOr(defaults.totalPrice),
        paymentStatus.GetOr(defaults.paymentStatus))
    }
  }

  /** `!!draft.S_NO`: an id that is present and not 0 selects update over add. */
  predicate Truthy(sNo: Option<int>) {
    sNo.Some? && sNo.value != 0
  }
}
