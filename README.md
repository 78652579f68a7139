# Suryasakshi bookkeeping dashboard, modelled in Dafny

Suryasakshi is a small bookkeeping dashboard for a farm-produce business. It
keeps six kinds of records in memory: silage sales, maize purchases, soybean
purchases, soybean sales, general purchases and other expenses. It shows them
on six list pages and sums them into dashboard cards and charts. This project
models the logic behind those screens and proves what it promises:

- **The period filter and the dashboard cards** (`DashboardStats.tsx`):
  - the five sums of the current period and the comparison period;
  - the percent change, with its division-by-zero policy;
  - the green/red tone, inverted for the two cost cards.
- **The record store** (`DataContext.tsx`): a class with six sequence fields.
  Each kind has add (prepend under a fresh id), update (replace by `S_NO`) and
  delete (filter out by `S_NO`).
- **The CSV text of `exportToCsv`** (`utils.ts`): an unquoted header line, then
  one line per record. Each field is quoted, with embedded quotes doubled. A
  reader for that text is proved to give back the labels and every field.
- **The login state** (`AuthContext.tsx`): a class holding the signed-in user
  and the stored copy of the name. It has the fixed five-user table, restore
  on load, login and logout.
- **The monthly silage-weight chart** (`SilageWeightChart.tsx`): a method that
  fills twelve buckets in place, in an array.
- **The sales pie** (`SalesPieChart.tsx`): two period totals, with
  non-positive slices dropped.
- **The six list pages**. Each has:
  - the period-and-search filter;
  - save normalisation: the derived total, the silage paid amount and the
    date default;
  - a dialog class whose handlers add, edit, save (update or add) and delete
    through the store.

### Modelling choices

- **Dates** are `Stamp`s: a (year, month 0–11) pair, or `Invalid` for a value
  `new Date` cannot read. An invalid date is in no period.
- **Amounts** are `real`, so sums and percent changes are exact.
- **Values passed in as parameters:**
  - "now", the fresh id (`Date.now()`) and the generated default record;
  - the user's answer to the delete confirmation;
  - the value found in browser storage at load.
- **Accessors** (`View`): the dashboard cards and the pie read their records
  through accessor triples (date, weight, amount).
  - `AsWrittenViews`/`AsWrittenPieViews` are the lower-case keys the
    components use. Those keys do not exist on the records, so every date is
    invalid.
  - `RecordViews`/`RecordPieViews` are the upper-case fields the record
    types define.
  - Both are proved about; see Findings.
- **Drafts** (`Partial<...>`) are datatypes whose fields are all `Option`s.
  - A draft with a truthy `S_NO` comes only from `handleEdit`, so it is
    complete. The dialog's `Valid` predicate keeps this, and it makes the
    update's `as` cast sound.

## Model

| member | source | states |
|---|---|---|
| Periods.InPeriodRecords | src/components/DashboardStats.tsx:23-30 | a record is kept iff its date is valid, its year is the period's year, and the period has no month or the record's month is that month |
| Periods.PeriodSumSnoc | src/components/DashboardStats.tsx:33-41 | one more record adds its amount to a period's sum iff it is dated in the period |
| Periods.YearIsSumOfMonths | src/components/DashboardStats.tsx:22-43 | a full-year sum is the sum of the twelve single-month sums of that year |
| DashboardStats.FullYearIsTwelveMonths | src/components/DashboardStats.tsx:22-43 | each of the five full-year totals equals the sum of that year's twelve single-month totals |
| DashboardStats.CurrentPeriod | src/components/DashboardStats.tsx:20-46 | a date is in the current period iff it is in the selection: the selected year, and "Full Year" (12) or the selected month |
| DashboardStats.PreviousPeriod | src/components/DashboardStats.tsx:48-54 | "Full Year" compares with the whole previous year; a month compares with the calendar month before it (January with December of the year before), one month earlier on the year×12+month scale |
| Common.DateFromParts | src/components/DashboardStats.tsx:52-53 | `new Date(year, month, 1)` always gives a valid date, and the given (year, month) itself when the month is in range and the year is not 0–99 |
| DashboardStats.TwoDigitYearComparison | src/components/DashboardStats.tsx:52-53 | for every selected year from 0 to 99, `new Date` reads it as 1900 + year: month m > 0 compares with month m − 1 of 1900 + year, January with December of 1899 + year; every other year, negative ones included, compares with the month just before it |
| DashboardStats.Change | src/components/DashboardStats.tsx:56-60 | against a zero comparison value the change is 100 for a positive current value and 0 otherwise; otherwise it is the relative change ×100 |
| DashboardStats.ChangeIsRelative | src/components/DashboardStats.tsx:58-59 | away from a zero comparison value the change is exactly (current − previous)/previous × 100; the "current is 0" branch only names its value |
| DashboardStats.ChangeSign | src/components/DashboardStats.tsx:57-59 | against a positive comparison value the change is positive, zero or negative exactly when current is above, equal to or below it; current 0 gives −100 |
| DashboardStats.Stats | src/components/DashboardStats.tsx:46-66 | exactly three cards in the order Silage Sales, Maize Purchase, Other Expenses; each card's amount is its kind's sum over the current period, the first two carry their weight sums and the expenses card none, and each card's change is `Change` of its current sum against its sum over the comparison period; the expenses card sums other expenses alone |
| DashboardStats.CardTone | src/components/DashboardStats.tsx:46-90 | against positive comparison totals, the silage card is green iff its current total is at least the previous one, and each cost card is green iff its current total is below the previous one |
| DashboardStats.MarchAgainstFebruary | src/components/DashboardStats.tsx:46-90 | a 10,000 silage sale in March 2024 against an 8,000 one in February 2024 gives a March card of 10,000 with a change of 25 and a green tone |
| DashboardStats.Tone | src/components/DashboardStats.tsx:72-77 | the colour differs from the arrow's direction exactly on the two cost cards |
| DashboardStats.ToneMeaning | src/components/DashboardStats.tsx:72-90 | Silage Sales is green iff the change is ≥ 0 (a zero change counts as an increase); Maize Purchase and Other Expenses are green iff the change is < 0 |
| DashboardStats.AsWrittenTotalsAreZero | src/components/DashboardStats.tsx:32-41 | with the lower-case keys the component reads, all five totals are 0 for every store and period |
| DashboardStats.RecordViewsCountSale | src/components/DashboardStats.tsx:32-34 | with the record fields, a silage sale dated in the current period adds its amount and weight to the silage totals |
| SalesPieChart.SelectionSumIsPeriodSum | src/components/dashboard/SalesPieChart.tsx:35-45 | the pie's filter (same year, and full year or same month) sums exactly the records of the cards' current period |
| SalesPieChart.Slices | src/components/dashboard/SalesPieChart.tsx:47-50 | one slice per positive total and no other, none repeated, all positive; each slice is present iff its total is > 0; silage comes first when present; the list is empty iff both totals are ≤ 0 |
| SalesPieChart.SilageSliceIsSilageCard | src/components/dashboard/SalesPieChart.tsx:44-50 | with the record fields, the silage slice is shown iff the silage card's amount is positive, with that amount, in first place |
| SalesPieChart.AsWrittenPieIsEmpty | src/components/dashboard/SalesPieChart.tsx:44-45 | with the lower-case keys the component reads, the pie has no slice for any data, so the "no data" message shows |
| SilageWeightChart.MonthlyWeights | src/components/dashboard/SilageWeightChart.tsx:15-28 | exactly twelve buckets; bucket m is the tonnage (kg/1000) of the sales dated in month m of the selected year; the buckets add up to the year's tonnage |
| SilageWeightChart.BucketsSnoc | src/components/dashboard/SilageWeightChart.tsx:23-27 | one more sale of the year adds its tonnage to its own month's bucket and to no other |
| SilageWeightChart.BucketsOfYear | src/components/dashboard/SilageWeightChart.tsx:21 | filtering the sales by year first does not change the buckets |
| SilageWeightChart.BucketsAddUpToYear | src/components/dashboard/SilageWeightChart.tsx:23-27 | the twelve buckets add up to the full-year tonnage |
| DataStore.Store.constructor | src/context/DataContext.tsx:47-52 | the six collections start as the given lists |
| DataStore.Store.AddSilageSale | src/context/DataContext.tsx:55-58 | `silageSales` becomes the draft laid over the defaults under the fresh id, followed by the old list unchanged; the length grows by one; no other collection is touched |
| DataStore.Store.UpdateSilageSale | src/context/DataContext.tsx:59-61 | `silageSales` becomes the by-id replacement of the old list; no other collection is touched |
| DataStore.Store.DeleteSilageSale | src/context/DataContext.tsx:62-64 | `silageSales` becomes the old list without the records carrying the id, and none is left; no other collection is touched |
| DataStore.Store.AddMaizePurchase | src/context/DataContext.tsx:67-70 | `maizePurchases` becomes the draft laid over the defaults under the fresh id, followed by the old list unchanged; the length grows by one; no other collection is touched |
| DataStore.Store.UpdateMaizePurchase | src/context/DataContext.tsx:71-73 | `maizePurchases` becomes the by-id replacement of the old list; no other collection is touched |
| DataStore.Store.DeleteMaizePurchase | src/context/DataContext.tsx:74-76 | `maizePurchases` becomes the old list without the records carrying the id, and none is left; no other collection is touched |
| DataStore.Store.AddOtherExpense | src/context/DataContext.tsx:79-82 | `otherExpenses` becomes the draft laid over the defaults under the fresh id, followed by the old list unchanged; the length grows by one; no other collection is touched |
| DataStore.Store.UpdateOtherExpense | src/context/DataContext.tsx:83-85 | `otherExpenses` becomes the by-id replacement of the old list; no other collection is touched |
| DataStore.Store.DeleteOtherExpense | src/context/DataContext.tsx:86-88 | `otherExpenses` becomes the old list without the records carrying the id, and none is left; no other collection is touched |
| DataStore.Store.AddSoybeanPurchase | src/context/DataContext.tsx:91-94 | `soybeanPurchases` becomes the draft laid over the defaults under the fresh id, followed by the old list unchanged; the length grows by one; no other collection is touched |
| DataStore.Store.UpdateSoybeanPurchase | src/context/DataContext.tsx:95-97 | `soybeanPurchases` becomes the by-id replacement of the old list; no other collection is touched |
| DataStore.Store.DeleteSoybeanPurchase | src/context/DataContext.tsx:98-100 | `soybeanPurchases` becomes the old list without the records carrying the id, and none is left; no other collection is touched |
| DataStore.Store.AddSoybeanSale | src/context/DataContext.tsx:103-106 | `soybeanSales` becomes the draft laid over the defaults under the fresh id, followed by the old list unchanged; the length grows by one; no other collection is touched |
| DataStore.Store.UpdateSoybeanSale | src/context/DataContext.tsx:107-109 | `soybeanSales` becomes the by-id replacement of the old list; no other collection is touched |
| DataStore.Store.DeleteSoybeanSale | src/context/DataContext.tsx:110-112 | `soybeanSales` becomes the old list without the records carrying the id, and none is left; no other collection is touched |
| DataStore.Store.AddPurchase | src/context/DataContext.tsx:115-118 | `purchases` becomes the draft laid over the defaults under the fresh id, followed by the old list unchanged; the length grows by one; no other collection is touched |
| DataStore.Store.UpdatePurchase | src/context/DataContext.tsx:119-121 | `purchases` becomes the by-id replacement of the old list; no other collection is touched |
| DataStore.Store.DeletePurchase | src/context/DataContext.tsx:122-124 | `purchases` becomes the old list without the records carrying the id, and none is left; no other collection is touched |
| Records.SilageSaleDraft.Over | src/context/DataContext.tsx:56 | the added record always carries the fresh id, even when the draft had one; each field present in the draft wins over the generated default, and an absent one takes the default; a complete draft keeps all its fields but the id |
| Records.PurchaseDraft.Over | src/context/DataContext.tsx:116 | the added record always carries the fresh id, even when the draft had one; each field present in the draft wins over the generated default, and an absent one takes the default; a complete draft keeps all its fields but the id |
| Records.MaizePurchaseDraft.Over | src/context/DataContext.tsx:68 | the added record always carries the fresh id, even when the draft had one; each field present in the draft wins over the generated default, and an absent one takes the default; a complete draft keeps all its fields but the id |
| Records.OtherExpenseDraft.Over | src/context/DataContext.tsx:80 | the added record always carries the fresh id, even when the draft had one; each field present in the draft wins over the generated default, and an absent one takes the default; a complete draft keeps all its fields but the id |
| Records.SoybeanPurchaseDraft.Over | src/context/DataContext.tsx:92 | the added record always carries the fresh id, even when the draft had one; each field present in the draft wins over the generated default, and an absent one takes the default; a complete draft keeps all its fields but the id |
| Records.SoybeanSaleDraft.Over | src/context/DataContext.tsx:104 | the added record always carries the fresh id, even when the draft had one; each field present in the draft wins over the generated default, and an absent one takes the default; a complete draft keeps all its fields but the id |
| Lists.Replace | src/context/DataContext.tsx:60 | update keeps length and positions; every element with the argument's id becomes the argument; every other element is kept |
| Lists.ReplaceAbsent | src/context/DataContext.tsx:60 | updating with an id no record carries leaves the collection unchanged |
| Lists.ReplaceIdempotent | src/context/DataContext.tsx:60 | updating twice with the same record is updating once |
| Lists.Remove | src/context/DataContext.tsx:63 | delete keeps every record whose id differs, as often as before, and none with the id |
| Lists.RemoveAbsent | src/context/DataContext.tsx:63 | deleting an id no record carries is a no-op |
| Lists.RemoveIdempotent | src/context/DataContext.tsx:63 | deleting twice is deleting once |
| Lists.RemoveAppend | src/context/DataContext.tsx:63 | delete keeps the surviving records in their original order |
| Lists.RemoveUndoesPrepend | src/context/DataContext.tsx:57-63 | deleting the id of a just-added record whose id was fresh gives the old list back |
| Csv.Escape | src/lib/utils.ts:26 | escaping never shortens the text |
| Csv.UnescapeEscape | src/lib/utils.ts:26 | collapsing each doubled quote of an escaped value gives the original value back |
| Csv.EscapeWithoutQuotes | src/lib/utils.ts:26 | a value without a double quote is written unchanged |
| Csv.QuoteUnescapes | src/lib/utils.ts:26-27 | between its quotes a field gives the value back once doubled quotes are collapsed; a value without a double quote is quoted as is |
| Csv.Values | src/lib/utils.ts:24-26 | one value per header, in header order; a missing value is the empty text |
| Csv.ExportToCsv | src/lib/utils.ts:16-31 | no text iff the data is empty; whenever there is text, a column and no label holding a comma or a line feed, reading it back gives exactly the header labels and every record's field values in header order |
| Csv.ExportExample | src/lib/utils.ts:16-31 | two headers and a record with one of the two fields: `ID,Note` then `"1",""`, labels unquoted, the missing field empty |
| Csv.QuotedBodyRoundTrip | src/lib/utils.ts:26-27 | reading an escaped value up to its closing quote gives the value back |
| Csv.FieldOfQuote | src/lib/utils.ts:26-27 | a quoted field reads back as its value |
| Csv.FieldsRoundTrip | src/lib/utils.ts:23-28 | a data line reads back as its list of values |
| Csv.RecordsRoundTrip | src/lib/utils.ts:23-29 | the data lines read back as the table of values, row by row |
| Csv.LabelRoundTrip | src/lib/utils.ts:22 | a label without a comma or line feed reads back as itself |
| Csv.LabelsRoundTrip | src/lib/utils.ts:22 | the header line reads back as the labels |
| Csv.ContentRoundTrip | src/lib/utils.ts:22-31 | for non-empty data and labels without comma or line feed, reading `csvContent` back gives exactly the header labels and every record's field values in header order |
| Text.ToUpperIdempotent | src/context/AuthContext.tsx:37 | upper-casing twice is upper-casing once |
| Text.Contains | src/pages/SilageSales.tsx:35 | `includes` holds iff the term occurs at some position |
| Text.EmptyOccursEverywhere | src/pages/SilageSales.tsx:35 | the empty term is found in every text |
| Text.NatToString | src/pages/SilageSales.tsx:35 | `toString` of a natural number: at least one decimal digit, no leading zero |
| Text.NatToStringRoundTrip | src/pages/SilageSales.tsx:35 | reading the digits back gives the number |
| Auth.Authenticate | src/context/AuthContext.tsx:36-38 | success iff the upper-cased name is in the table and the password equals its entry exactly; the user is then the upper-cased name |
| Auth.RestoreUser | src/context/AuthContext.tsx:25-32 | the stored name is restored iff it is one of the table's names; otherwise no user |
| Auth.UsernameCaseIgnored | src/context/AuthContext.tsx:37 | a name and its upper-cased form sign in alike |
| Auth.PasswordCaseMatters | src/context/AuthContext.tsx:38 | "om"/"OM@66" signs in as OM; "om"/"om@66" is refused |
| Auth.LongSSignsIn | src/context/AuthContext.tsx:37 | "ſhubham" upper-cases to SHUBHAM and signs in |
| Auth.LoginSurvivesReload | src/context/AuthContext.tsx:25-40 | the name a successful login stores is the user restored on the next load |
| Auth.Session.constructor | src/context/AuthContext.tsx:25-32 | the user is the restored name, and the stored value is as found |
| Auth.Session.IsAuthenticated | src/context/AuthContext.tsx:52 | authenticated iff there is a user |
| Auth.Session.Login | src/context/AuthContext.tsx:36-44 | returns true iff the credentials match; on success the user and the stored value are the upper-cased name; on failure neither changes; only table names are ever signed in |
| Auth.Session.Logout | src/context/AuthContext.tsx:46-48 | no user and no stored value afterwards |
| SilageSalesPage.FilteredList | src/pages/SilageSales.tsx:30-38 | a record is listed iff it is in the store, its year is the selected year, the month is "Full Year" or its own, and the lower-cased term occurs in the lower-cased NAME_OF_BUYER, or the term occurs in the invoice number's decimal digits; each listed record appears as often as in the store |
| SilageSalesPage.FilteredListKeepsOrder | src/pages/SilageSales.tsx:30-38 | the list keeps store order: filtering two parts of the store is filtering each part in turn |
| SilageSalesPage.EmptySearchListsPeriod | src/pages/SilageSales.tsx:30-38 | with an empty search term the list is exactly the store's records dated in the dashboard's current period, in store order |
| SilageSalesPage.FoundByOwnName | src/pages/SilageSales.tsx:35 | searching for a record's own NAME_OF_BUYER lists it iff its date is in the selected period |
| SilageSalesPage.FoundByInvoiceNumber | src/pages/SilageSales.tsx:35 | searching for a sale's invoice number as text lists it iff its date is in the selected period |
| SilageSalesPage.Saved | src/pages/SilageSales.tsx:40-60 | the saved draft has `TOTAL_AMOUNT` = `WEIGHT_KG` × `RATE` with an absent factor read as 0; the paid amount is 0 for a Pending sale, else the draft's paid amount when present (0 included), else the total; a missing date becomes `now`; every other field is unchanged; a complete draft stays complete; an already consistent draft is returned as is |
| SilageSalesPage.SaveIdempotent | src/pages/SilageSales.tsx:40-60 | saving a saved draft again changes nothing, whatever the second `now` |
| SilageSalesPage.NewDraft | src/pages/SilageSales.tsx:62-71 | the new draft has no id, date `now`, status Pending, weight 0, rate 0 and paid amount 0, so saving it adds a record |
| SilageSalesPage.NewDraftSavesZero | src/pages/SilageSales.tsx:62-71 | a new draft saved untouched has total 0 and keeps its date and paid amount 0 |
| SilageSalesPage.NewRecordAsDrafted | src/pages/SilageSales.tsx:62-71 | a new draft saved and added untouched becomes a record under the fresh id with the draft's own date and values (date `now`, status Pending, weight 0, rate 0 and paid amount 0), not the generated defaults |
| SilageSalesPage.SilageSalesDialog.HandleAddNew | src/pages/SilageSales.tsx:62-71 | opens the dialog on the new draft |
| SilageSalesPage.SilageSalesDialog.HandleEdit | src/pages/SilageSales.tsx:73-76 | opens the dialog on the record itself, as a complete draft |
| SilageSalesPage.SilageSalesDialog.HandleSave | src/pages/SilageSales.tsx:40-60 | with no draft nothing changes; a draft with a truthy id replaces the store's records with that id by the saved record; otherwise the saved draft is laid over the defaults under the fresh id and put in front; then the dialog closes and the draft is cleared; only this page's collection changes |
| SilageSalesPage.SilageSalesDialog.HandleDelete | src/pages/SilageSales.tsx:78-82 | when confirmed the records with that id are removed, otherwise the collection is unchanged |
| MaizePurchasePage.FilteredList | src/pages/MaizePurchase.tsx:30-38 | a record is listed iff it is in the store, its year is the selected year, the month is "Full Year" or its own, and the lower-cased term occurs in the lower-cased NAME_OF_FARMER; each listed record appears as often as in the store |
| MaizePurchasePage.FilteredListKeepsOrder | src/pages/MaizePurchase.tsx:30-38 | the list keeps store order: filtering two parts of the store is filtering each part in turn |
| MaizePurchasePage.EmptySearchListsPeriod | src/pages/MaizePurchase.tsx:30-38 | with an empty search term the list is exactly the store's records dated in the dashboard's current period, in store order |
| MaizePurchasePage.FoundByOwnName | src/pages/MaizePurchase.tsx:35 | searching for a record's own NAME_OF_FARMER lists it iff its date is in the selected period |
| MaizePurchasePage.Saved | src/pages/MaizePurchase.tsx:40-58 | the saved draft has `TOTAL_AMOUNT` = `WEIGHT_KG` × `RATE_MAIZE` with an absent factor read as 0; a missing date becomes `now`; every other field is unchanged; a complete draft stays complete; an already consistent draft is returned as is |
| MaizePurchasePage.SaveIdempotent | src/pages/MaizePurchase.tsx:40-58 | saving a saved draft again changes nothing, whatever the second `now` |
| MaizePurchasePage.NewDraft | src/pages/MaizePurchase.tsx:60-68 | the new draft has no id, date `now`, status Pending, weight or quantity 0 and rate 0, so saving it adds a record |
| MaizePurchasePage.NewDraftSavesZero | src/pages/MaizePurchase.tsx:60-68 | a new draft saved untouched has total 0 and keeps its date |
| MaizePurchasePage.NewRecordAsDrafted | src/pages/MaizePurchase.tsx:60-68 | a new draft saved and added untouched becomes a record under the fresh id with the draft's own date and values (date `now`, status Pending, weight or quantity 0 and rate 0), not the generated defaults |
| MaizePurchasePage.MaizePurchaseDialog.HandleAddNew | src/pages/MaizePurchase.tsx:60-68 | opens the dialog on the new draft |
| MaizePurchasePage.MaizePurchaseDialog.HandleEdit | src/pages/MaizePurchase.tsx:70-73 | opens the dialog on the record itself, as a complete draft |
| MaizePurchasePage.MaizePurchaseDialog.HandleSave | src/pages/MaizePurchase.tsx:40-58 | with no draft nothing changes; a draft with a truthy id replaces the store's records with that id by the saved record; otherwise the saved draft is laid over the defaults under the fresh id and put in front; then the dialog closes and the draft is cleared; only this page's collection changes |
| MaizePurchasePage.MaizePurchaseDialog.HandleDelete | src/pages/MaizePurchase.tsx:75-79 | when confirmed the records with that id are removed, otherwise the collection is unchanged |
| SoybeanPurchasePage.FilteredList | src/pages/SoybeanPurchase.tsx:30-38 | a record is listed iff it is in the store, its year is the selected year, the month is "Full Year" or its own, and the lower-cased term occurs in the lower-cased NAME_0F_SALER; each listed record appears as often as in the store |
| SoybeanPurchasePage.FilteredListKeepsOrder | src/pages/SoybeanPurchase.tsx:30-38 | the list keeps store order: filtering two parts of the store is filtering each part in turn |
| SoybeanPurchasePage.EmptySearchListsPeriod | src/pages/SoybeanPurchase.tsx:30-38 | with an empty search term the list is exactly the store's records dated in the dashboard's current period, in store order |
| SoybeanPurchasePage.FoundByOwnName | src/pages/SoybeanPurchase.tsx:35 | searching for a record's own NAME_0F_SALER lists it iff its date is in the selected period |
| SoybeanPurchasePage.Saved | src/pages/SoybeanPurchase.tsx:40-58 | the saved draft has `TOTAL_PRICE` = `WEIGHT_QUINTAL` × `RATE` with an absent factor read as 0; a missing date becomes `now`; every other field is unchanged; a complete draft stays complete; an already consistent draft is returned as is |
| SoybeanPurchasePage.SaveIdempotent | src/pages/SoybeanPurchase.tsx:40-58 | saving a saved draft again changes nothing, whatever the second `now` |
| SoybeanPurchasePage.NewDraft | src/pages/SoybeanPurchase.tsx:60-68 | the new draft has no id, date `now`, status Pending, weight or quantity 0 and rate 0, so saving it adds a record |
| SoybeanPurchasePage.NewDraftSavesZero | src/pages/SoybeanPurchase.tsx:60-68 | a new draft saved untouched has total 0 and keeps its date |
| SoybeanPurchasePage.NewRecordAsDrafted | src/pages/SoybeanPurchase.tsx:60-68 | a new draft saved and added untouched becomes a record under the fresh id with the draft's own date and values (date `now`, status Pending, weight or quantity 0 and rate 0), not the generated defaults |
| SoybeanPurchasePage.SoybeanPurchaseDialog.HandleAddNew | src/pages/SoybeanPurchase.tsx:60-68 | opens the dialog on the new draft |
| SoybeanPurchasePage.SoybeanPurchaseDialog.HandleEdit | src/pages/SoybeanPurchase.tsx:70-73 | opens the dialog on the record itself, as a complete draft |
| SoybeanPurchasePage.SoybeanPurchaseDialog.HandleSave | src/pages/SoybeanPurchase.tsx:40-58 | with no draft nothing changes; a draft with a truthy id replaces the store's records with that id by the saved record; otherwise the saved draft is laid over the defaults under the fresh id and put in front; then the dialog closes and the draft is cleared; only this page's collection changes |
| SoybeanPurchasePage.SoybeanPurchaseDialog.HandleDelete | src/pages/SoybeanPurchase.tsx:75-79 | when confirmed the records with that id are removed, otherwise the collection is unchanged |
| SoybeanSalesPage.FilteredList | src/pages/SoybeanSales.tsx:30-38 | a record is listed iff it is in the store, its year is the selected year, the month is "Full Year" or its own, and the lower-cased term occurs in the lower-cased NAME_0F_BUYER; each listed record appears as often as in the store |
| SoybeanSalesPage.FilteredListKeepsOrder | src/pages/SoybeanSales.tsx:30-38 | the list keeps store order: filtering two parts of the store is filtering each part in turn |
| SoybeanSalesPage.EmptySearchListsPeriod | src/pages/SoybeanSales.tsx:30-38 | with an empty search term the list is exactly the store's records dated in the dashboard's current period, in store order |
| SoybeanSalesPage.FoundByOwnName | src/pages/SoybeanSales.tsx:35 | searching for a record's own NAME_0F_BUYER lists it iff its date is in the selected period |
| SoybeanSalesPage.Saved | src/pages/SoybeanSales.tsx:40-58 | the saved draft has `TOTAL_PRICE` = `QUANTITY` × `RATE` with an absent factor read as 0; a missing date becomes `now`; every other field is unchanged; a complete draft stays complete; an already consistent draft is returned as is |
| SoybeanSalesPage.SaveIdempotent | src/pages/SoybeanSales.tsx:40-58 | saving a saved draft again changes nothing, whatever the second `now` |
| SoybeanSalesPage.NewDraft | src/pages/SoybeanSales.tsx:60-68 | the new draft has no id, date `now`, status Pending, weight or quantity 0 and rate 0, so saving it adds a record |
| SoybeanSalesPage.NewDraftSavesZero | src/pages/SoybeanSales.tsx:60-68 | a new draft saved untouched has total 0 and keeps its date |
| SoybeanSalesPage.NewRecordAsDrafted | src/pages/SoybeanSales.tsx:60-68 | a new draft saved and added untouched becomes a record under the fresh id with the draft's own date and values (date `now`, status Pending, weight or quantity 0 and rate 0), not the generated defaults |
| SoybeanSalesPage.SoybeanSalesDialog.HandleAddNew | src/pages/SoybeanSales.tsx:60-68 | opens the dialog on the new draft |
| SoybeanSalesPage.SoybeanSalesDialog.HandleEdit | src/pages/SoybeanSales.tsx:70-73 | opens the dialog on the record itself, as a complete draft |
| SoybeanSalesPage.SoybeanSalesDialog.HandleSave | src/pages/SoybeanSales.tsx:40-58 | with no draft nothing changes; a draft with a truthy id replaces the store's records with that id by the saved record; otherwise the saved draft is laid over the defaults under the fresh id and put in front; then the dialog closes and the draft is cleared; only this page's collection changes |
| SoybeanSalesPage.SoybeanSalesDialog.HandleDelete | src/pages/SoybeanSales.tsx:75-79 | when confirmed the records with that id are removed, otherwise the collection is unchanged |
| PurchasesPage.FilteredList | src/pages/Purchases.tsx:29-37 | a record is listed iff it is in the store, its year is the selected year, the month is "Full Year" or its own, and the lower-cased term occurs in the lower-cased NAME_OF_SELLER or in the lower-cased `PRODUCT`; each listed record appears as often as in the store |
| PurchasesPage.FilteredListKeepsOrder | src/pages/Purchases.tsx:29-37 | the list keeps store order: filtering two parts of the store is filtering each part in turn |
| PurchasesPage.EmptySearchListsPeriod | src/pages/Purchases.tsx:29-37 | with an empty search term the list is exactly the store's records dated in the dashboard's current period, in store order |
| PurchasesPage.FoundByOwnName | src/pages/Purchases.tsx:34 | searching for a record's own NAME_OF_SELLER lists it iff its date is in the selected period |
| PurchasesPage.Saved | src/pages/Purchases.tsx:39-53 | the saved draft keeps every field, the amount included, and only a missing date becomes `now`; a complete draft stays complete; a draft with a date is returned as is |
| PurchasesPage.SaveIdempotent | src/pages/Purchases.tsx:39-53 | saving a saved draft again changes nothing, whatever the second `now` |
| PurchasesPage.NewDraft | src/pages/Purchases.tsx:55-61 | the new draft has no id, date `now` and amount 0, so saving it adds a record |
| PurchasesPage.NewRecordAsDrafted | src/pages/Purchases.tsx:55-61 | a new draft saved and added untouched becomes a record under the fresh id with the draft's own date and values (date `now` and amount 0), not the generated defaults |
| PurchasesPage.PurchasesDialog.HandleAddNew | src/pages/Purchases.tsx:55-61 | opens the dialog on the new draft |
| PurchasesPage.PurchasesDialog.HandleEdit | src/pages/Purchases.tsx:63-66 | opens the dialog on the record itself, as a complete draft |
| PurchasesPage.PurchasesDialog.HandleSave | src/pages/Purchases.tsx:39-53 | with no draft nothing changes; a draft with a truthy id replaces the store's records with that id by the saved record; otherwise the saved draft is laid over the defaults under the fresh id and put in front; then the dialog closes and the draft is cleared; only this page's collection changes |
| PurchasesPage.PurchasesDialog.HandleDelete | src/pages/Purchases.tsx:68-72 | when confirmed the records with that id are removed, otherwise the collection is unchanged |
| OtherExpensesPage.FilteredList | src/pages/OtherExpenses.tsx:29-37 | a record is listed iff it is in the store, its year is the selected year, the month is "Full Year" or its own, and the lower-cased term occurs in the lower-cased EXPENSE_NAME; each listed record appears as often as in the store |
| OtherExpensesPage.FilteredListKeepsOrder | src/pages/OtherExpenses.tsx:29-37 | the list keeps store order: filtering two parts of the store is filtering each part in turn |
| OtherExpensesPage.EmptySearchListsPeriod | src/pages/OtherExpenses.tsx:29-37 | with an empty search term the list is exactly the store's records dated in the dashboard's current period, in store order |
| OtherExpensesPage.FoundByOwnName | src/pages/OtherExpenses.tsx:34 | searching for a record's own EXPENSE_NAME lists it iff its date is in the selected period |
| OtherExpensesPage.Saved | src/pages/OtherExpenses.tsx:39-53 | the saved draft keeps every field, the amount included, and only a missing date becomes `now`; a complete draft stays complete; a draft with a date is returned as is |
| OtherExpensesPage.SaveIdempotent | src/pages/OtherExpenses.tsx:39-53 | saving a saved draft again changes nothing, whatever the second `now` |
| OtherExpensesPage.NewDraft | src/pages/OtherExpenses.tsx:55-61 | the new draft has no id, date `now` and amount 0, so saving it adds a record |
| OtherExpensesPage.NewRecordAsDrafted | src/pages/OtherExpenses.tsx:55-61 | a new draft saved and added untouched becomes a record under the fresh id with the draft's own date and values (date `now` and amount 0), not the generated defaults |
| OtherExpensesPage.OtherExpensesDialog.HandleAddNew | src/pages/OtherExpenses.tsx:55-61 | opens the dialog on the new draft |
| OtherExpensesPage.OtherExpensesDialog.HandleEdit | src/pages/OtherExpenses.tsx:63-66 | opens the dialog on the record itself, as a complete draft |
| OtherExpensesPage.OtherExpensesDialog.HandleSave | src/pages/OtherExpenses.tsx:39-53 | with no draft nothing changes; a draft with a truthy id replaces the store's records with that id by the saved record; otherwise the saved draft is laid over the defaults under the fresh id and put in front; then the dialog closes and the draft is cleared; only this page's collection changes |
| OtherExpensesPage.OtherExpensesDialog.HandleDelete | src/pages/OtherExpenses.tsx:68-72 | when confirmed the records with that id are removed, otherwise the collection is unchanged |

## Left out

- Rounding and display formats are not modelled: `toFixed`, `parseFloat` of
  the chart buckets, `formatCurrency` and the month names from
  `toLocaleString`. Amounts are exact reals.
- Floating point is not modelled. The sums have no rounding error, `NaN` is
  absent, and `|| 0` on a number is modelled on an absent field only.
- `new Date(...)` on a stored value becomes a `Stamp`. Time zones and string
  parsing are left out; a value `new Date` cannot read is `Invalid`.
- Browser side effects are left out: the `alert` and the Blob download of
  `exportToCsv`, `navigate` after logout, and the `window.confirm` dialog,
  whose answer is a parameter. `localStorage` is the `persisted` field.
- The export's file name (category, month name, year) is not modelled; only
  the CSV text is.
- Csv.Values: fields are modelled as text. `String(value)` of numbers and
  dates is left out, because its formatting is JavaScript's own.
- Text.ToLower / Text.ToUpper: case mapping is character for character. It
  covers ASCII, plus ı and ſ, which upper-case to I and S. Other Unicode
  mappings are left out: the non-ASCII letters, mappings that change the
  length (ß to SS, the ligatures ﬀ–ﬆ), and the Kelvin sign's lower case k.
- Csv.ExportToCsv: its read-back promise needs at least one column and every
  label free of commas and line feeds, because the header line is written
  unquoted.
- `handleFormChange` / `handleSelectChange` are not modelled. They are form
  glue that writes one field of the draft.
- The generated mock records (`createRandom*`) are not modelled; the default
  record for an add is a parameter.
- Records.PaymentStatus: one enum holds the status values of every kind,
  rather than one per record type.
- `Date.now()` is modelled as a parameter. The model does not guarantee the
  fresh id is unique.
- The React rendering of the pages, cards, charts and dialogs is not
  modelled.

## Findings

| source | as written | input that shows it | evidently intended | confidence | as-written member | corrected member |
|---|---|---|---|---|---|---|
| src/components/DashboardStats.tsx:32-41 | the totals read `item['date_of_perchase']`, `s.weight_kg`, `s.total_amount` and similar lower-case keys, while the records carry `DATE_OF_PERCHASE`, `WEIGHT_KG`, `TOTAL_AMOUNT` | any store holding a silage sale dated in the selected month: `new Date(undefined)` is invalid, so the card shows 0 | sum the upper-case record fields, so a sale in the period adds its amount and weight to the card | not executed | DashboardStats.AsWrittenTotalsAreZero | DashboardStats.RecordViewsCountSale |
| src/components/dashboard/SalesPieChart.tsx:44-45 | the pie filters on `'date_of_perchase'` / `'date_of_sale'` and sums `total_amount` / `total_price`, keys the records do not have | any store with sales in the selected period: both totals are 0, and the chart shows "no data" | sum `TOTAL_AMOUNT` / `TOTAL_PRICE` by `DATE_OF_PERCHASE` / `DATE_OF_SALE`, so the silage slice matches the silage card | not executed | SalesPieChart.AsWrittenPieIsEmpty | SalesPieChart.SilageSliceIsSilageCard |
