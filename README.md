# Stock ledger of a small inventory and point-of-sale app

This Dafny project models the domain core of a single-user React inventory and point-of-sale app for a small shop. The app keeps four collections in the root component: products, sales, purchases and customers. Page handlers replace these collections wholesale. Read-only pages derive their figures from them.

The model covers:

- **Record types and enumerations** (`Types`). Product, sale, purchase and customer records. The closed `Category` and `PaymentMethod` enumerations, with their Portuguese labels. Money is an integer number of centavos.
- **Ledger transactions.** The `App.Store` class holds the four collections as `seq` fields. Its methods are the page handlers:
  - record a sale;
  - record a purchase;
  - add or edit a product;
  - delete a product;
  - add a customer.

  Each method states its whole new state in terms of a pure function of the page's module (`Sales`, `Purchases`, `Inventory`, `Customers`). It also states which class invariant it keeps: unique ids and no negative stock.
- **Derived views.**
  - `Dashboard`: inventory value, stock count, today's revenue and profit, the two alert counters, the seven-day chart series and its "MM/DD" labels, and the low-stock panel.
  - `Reports`: all-time totals, the units sold per product (a loop over the sales that fills a map), the five best sellers, the margin, and the CSV export text.
- **Cross-page agreement** (`Ledger`). A sale or purchase moves the dashboard and report figures by exactly its own amounts. The catalog's stock badge agrees with the dashboard's alert counters.

`Seqs` and `Strings` state the JavaScript array and string operations the pages use, once each:

- `find`, `filter`, a summing `reduce`, a stable `sort` by a numeric key, `slice`, `reverse`;
- `toLowerCase`, `includes`, `startsWith`, `split`, `join`;
- integer-to-text rendering.

Behaviour of the code that is easy to misread:

- A negative stock is shown as "Baixo" (low), because the badge tests `stock === 0` first and then `stock <= 5`.
- Nothing requires a purchase's unit cost to be non-negative.
- A purchase of an unknown product does nothing. No product is created by it.
- The CSV export encloses the product name in quotes but does not double quotes inside it (see Findings).
- Stock stays non-negative under a sale only when product ids are unique. The stock check reads the first product with the id, while the update rewrites every product with it (`Sales.DuplicateIdCanGoNegative`). Catalog add and edit take the stock from the form unchecked, so they are the one path that can make a stock negative.

## Model

| member | source | states |
|---|---|---|
| Types.Categories | types.ts:2-8 | exactly five categories, every category listed, labels pairwise distinct |
| Types.CategoryLabelRoundTrip | types.ts:2-8 | a category is recovered from its label |
| Types.PaymentMethods | types.ts:10-15 | exactly four payment methods, every one listed, labels pairwise distinct |
| Types.PaymentLabelRoundTrip | types.ts:10-15 | a payment method is recovered from its label |
| Types.ProductIndex | pages/Sales.tsx:28 | `find` stops at the first product with the id; none when no product has it |
| Types.ProductById | pages/Sales.tsx:28 | the product found is the first in the catalog with the id, every earlier one having another id; none exactly when no product has it |
| Sales.CustomerRef | pages/Sales.tsx:47 | an empty customer selection is recorded as no customer, anything else as itself |
| Sales.NewSale | pages/Sales.tsx:36-48 | totalValue = salePrice × quantity and profit = totalValue − purchasePrice × quantity, from the product's prices at the moment of sale; the customer is the one selected, or none for the empty selection |
| Sales.Checkout | pages/Sales.tsx:28-37 | unknown product exactly when no product has the id; rejection exactly when the stock found is below the quantity, reporting that stock; otherwise the sale built from the found product |
| Sales.TakeFromStock | pages/Sales.tsx:54-56 | each product with the id loses exactly the quantity and keeps every other field; every other product is unchanged |
| Sales.ShortStockMessage | pages/Sales.tsx:32 | the rejection text carries the fixed prefix and suffix and, between them, exactly the decimal numeral of the available stock, which reads back as that stock |
| Sales.SaleKeepsStocksNonNegative | pages/Sales.tsx:31-56 | with unique ids and no negative stock, a sale that passes the check leaves no negative stock |
| Sales.DuplicateIdCanGoNegative | pages/Sales.tsx:28-56 | with two products sharing an id, a sale accepted on the first drives the second to −5 |
| Sales.SellingAllLeavesZero | pages/Sales.tsx:31-55 | selling exactly the whole stock is accepted and leaves 0 |
| Purchases.NewPurchase | pages/Purchases.tsx:27-35 | totalCost = unitCost × quantity; the other fields are the submitted ones |
| Purchases.Receive | pages/Purchases.tsx:24-35 | no purchase exactly when no product has the id; otherwise the purchase record |
| Purchases.Restock | pages/Purchases.tsx:38-42 | the matching product gains the quantity and takes the new cost and supplier; id, sku, name, category, salePrice and entryDate are kept; other products are unchanged |
| Purchases.RestockKeepsStocksNonNegative | pages/Purchases.tsx:24-42 | with the form's minimum quantity of one, a purchase never makes a stock negative |
| Purchases.LastPurchaseWins | pages/Purchases.tsx:38-42 | two purchases add both quantities and leave the second's cost and supplier |
| Strings.ToLower | pages/Inventory.tsx:17-19 | same length; each Latin upper-case letter lowered, every other character kept |
| Strings.Includes | pages/Inventory.tsx:17-19 | true exactly when the term occurs at some position; the empty term always occurs |
| Inventory.Search | pages/Inventory.tsx:16-20 | a product is listed exactly when the lowered term occurs in its lowered name, SKU or supplier; the result is a subsequence of the catalog keeping every copy of a matching product; an empty term lists every product |
| Inventory.SearchIgnoresCase | pages/Inventory.tsx:16-20 | searching for the lowered term gives the same list as the term itself |
| Inventory.Remove | pages/Inventory.tsx:22-26 | every product with the id goes, every other one stays, in order; the count removed is the count with that id |
| Inventory.FromForm | pages/Inventory.tsx:31-40 | the product takes the form's fields; an empty entry date becomes today |
| Inventory.Edit | pages/Inventory.tsx:42-43 | same length and ids; products with the edited id take the form's fields, every other product is unchanged |
| Inventory.Add | pages/Inventory.tsx:44-45 | one new product from the form at the end under the fresh id; existing products unchanged |
| Inventory.AddStocksNonNegative | pages/Inventory.tsx:37-45 | after adding, no stock is negative exactly when the form's stock is not |
| Inventory.EditStocksNonNegative | pages/Inventory.tsx:37-43 | after editing an existing product, no stock is negative exactly when the form's stock is not |
| Inventory.SaveKeepsUniqueIds | pages/Inventory.tsx:42-46 | an edit keeps ids unique; an add does so when the fresh id is new |
| Inventory.Status | pages/Inventory.tsx:124-130 | "Sem estoque" exactly at 0, "Baixo" exactly for non-zero stock up to 5, "Normal" exactly above 5 |
| Customers.Append | pages/Customers.tsx:17-23 | one more customer at the end with the submitted name, email and phone under the fresh id; earlier customers unchanged and in order |
| Customers.RepeatsAreAccepted | pages/Customers.tsx:14-25 | adding a customer with a name or email already present raises the count carrying it by one |
| Seqs.Filter | pages/Dashboard.tsx:25 | the kept elements, in order, as a subsequence, each kept element as many times as in the input and no other element at all |
| Dashboard.SalesOn | pages/Dashboard.tsx:25 | exactly the sales whose date starts with the day, in log order, each as many times as in the log |
| Dashboard.ComputeStats | pages/Dashboard.tsx:19-40 | the low-stock and out-of-stock counters never count the same product, so together they count at most the whole catalog |
| Dashboard.InventoryValue | pages/Dashboard.tsx:22 | the sum of stock × purchase price over the catalog (no contract of its own; `Dashboard.TotalsNonNegative`, `Dashboard.InventoryValueSkipsEmpty` and `Ledger.SaleMovesStock` state its properties) |
| Dashboard.StockCount | pages/Dashboard.tsx:23 | the sum of stocks over the catalog (no contract of its own; `Dashboard.TotalsNonNegative` and `Ledger.SaleMovesStock` state its properties) |
| Dashboard.RevenueOn | pages/Dashboard.tsx:25-26 | the sum of the values of the day's sales (no contract of its own; `Dashboard.QuietDayIsZero` and `Dashboard.NewSaleOnDay` state its properties) |
| Dashboard.ProfitOn | pages/Dashboard.tsx:25-27 | the sum of the profits of the day's sales (no contract of its own; `Dashboard.QuietDayIsZero` and `Dashboard.NewSaleOnDay` state its properties) |
| Dashboard.InventoryValueSkipsEmpty | pages/Dashboard.tsx:22 | products without stock add nothing to the inventory value |
| Dashboard.TotalsNonNegative | pages/Dashboard.tsx:22-23 | with no negative stock or cost, the inventory value and the stock count are non-negative |
| Dashboard.AlertCountsPartition | pages/Dashboard.tsx:29-30 | with no negative stock, low-stock plus out-of-stock alerts equal the products with at most 5 units |
| Dashboard.QuietDayIsZero | pages/Dashboard.tsx:25-27 | a day without sales has zero revenue and profit |
| Dashboard.NewSaleOnDay | pages/Dashboard.tsx:25-27 | a new sale changes a day's revenue and profit by its own amounts exactly when it falls on that day |
| Dashboard.WeekDays | pages/Dashboard.tsx:44-48 | seven days, oldest first, the last one today |
| Strings.SplitJoin | pages/Dashboard.tsx:53 | splitting a joined list gives the list back when no piece holds the separator |
| Dashboard.DayLabelOfIsoDate | pages/Dashboard.tsx:53 | the label of "YYYY-MM-DD" is "MM/DD" |
| Dashboard.DayLabel | pages/Dashboard.tsx:53 | no dash is left in the label of any day; for an ISO date `Dashboard.DayLabelOfIsoDate` proves the label is "MM/DD" |
| Dashboard.WeeklySeries | pages/Dashboard.tsx:50-57 | one bucket per day in day order, labelled by the day, holding that day's revenue and profit; a day without sales is a zero bucket |
| Dashboard.LastBucketIsToday | pages/Dashboard.tsx:20-57 | the chart's last bar shows the same revenue and profit as the "today" cards |
| Seqs.Lowest | pages/Dashboard.tsx:140-143 | sort by key then slice: at most n elements, drawn from the input with no element more often than it occurs, ascending, none left out with a smaller key than one kept |
| Dashboard.AttentionList | pages/Dashboard.tsx:137-143 | at most five products, all with stock ≤ 5, none listed more often than it occurs in the catalog, ascending by stock; none left out has less stock than one shown |
| Reports.GroupQuantities | pages/Reports.tsx:19-22 | the map has one entry per product sold, holding the sum of its sales' quantities |
| Reports.UnitsSoldAddUp | pages/Reports.tsx:19-22 | the grouped quantities add up to the total quantity sold |
| Reports.NameOr | pages/Reports.tsx:26 | the product's name, or the fallback when the product is missing or its name empty |
| Reports.Named | pages/Reports.tsx:25-28 | one seller line per grouped entry, in entry order: the product's name, or "Desconhecido", with the entry's units |
| Reports.TopSelling | pages/Reports.tsx:24-30 | at most five seller lines, no line more often than among the named entries, by non-increasing quantity, none left out with more units than one shown |
| Reports.TopSellingOfSales | pages/Reports.tsx:19-30 | from the grouped sales, each line shown is a sold product with its units sold, and every sold product is shown or sold no more than each one shown |
| Reports.Margin | pages/Reports.tsx:37 | margin × revenue = profit × 100 when revenue is positive, otherwise 0 |
| Reports.MarginBounds | pages/Reports.tsx:37 | a profit between 0 and the revenue gives a margin between 0% and 100% |
| Reports.ProfitWithinRevenue | pages/Reports.tsx:14-15 | when no sale profits more than its value, total profit is at most total revenue |
| Reports.TotalRevenue | pages/Reports.tsx:14 | the sum of the values of all sales (no contract of its own; `Ledger.NewSaleInTotals` and `Reports.ProfitWithinRevenue` state its properties) |
| Reports.TotalProfit | pages/Reports.tsx:15 | the sum of the profits of all sales (no contract of its own; `Ledger.NewSaleInTotals` and `Reports.ProfitWithinRevenue` state its properties) |
| Reports.TotalInvestment | pages/Reports.tsx:16 | the sum of the costs of all purchases (no contract of its own; `Ledger.PurchaseMovesStock` states how a purchase moves it) |
| Reports.HeaderLine | pages/Reports.tsx:42-44 | the header line splits back into the six column names |
| Reports.CsvRow | pages/Reports.tsx:45-47 | the line as the page writes it: the six values joined by commas, the name between quotes with its own quotes left single (no contract of its own; `Reports.UnescapedQuoteMisreads` states how it fails) |
| Reports.EscapedCsvRow | pages/Reports.tsx:47 | for a name without quotes, the escaped line is exactly the line the page writes |
| Reports.EscapedRowReadsBack | pages/Reports.tsx:47 | an RFC 4180 reader recovers id, date, product name, quantity, value and profit from a line, whatever the name holds |
| Reports.UnescapedQuoteMisreads | pages/Reports.tsx:47 | as written, a product named `"` makes its line read as three fields instead of six |
| Reports.CsvRows | pages/Reports.tsx:45-48 | one line per sale, in log order, each the escaped line of its sale |
| Reports.CsvText | pages/Reports.tsx:42-49 | the header line, then the escaped sale lines, joined by line breaks (no contract of its own; `Reports.CsvTextReadsBack` states what it reads back as) |
| Reports.CsvTextReadsBack | pages/Reports.tsx:42-49 | the escaped export is the header then one line per sale in list order, each reading back as its sale's values |
| Strings.DecimalRoundTrip | pages/Sales.tsx:32 | the decimal numeral of a number reads back as that number |
| Ledger.SaleMovesStock | pages/Sales.tsx:36-56 | a sale lowers the stock count by its quantity and the inventory value by its cost of goods, which is its value minus its profit |
| Ledger.NewSaleInTotals | pages/Reports.tsx:14-22 | a new sale adds its value, profit and quantity to the report totals |
| Ledger.PurchaseMovesStock | pages/Purchases.tsx:32-42 | a purchase adds its quantity to the stock count, revalues the product's whole stock at the new cost, and adds its total cost to the investment |
| Ledger.StatusMatchesAlerts | pages/Inventory.tsx:124-130 | for non-negative stock the badge agrees with the dashboard's alert counters; a negative stock shows "Baixo" yet is counted by neither |
| App.SeedCatalog | App.tsx:30-33 | the two seed products, with unique ids and non-negative stock |
| App.SaleKeepsCatalogSound | pages/Sales.tsx:28-56 | an accepted sale keeps ids unique and stocks non-negative |
| App.RestockKeepsIds | pages/Purchases.tsx:38-42 | a purchase never changes an id |
| App.RemoveKeepsCatalogSound | pages/Inventory.tsx:24 | deleting keeps ids unique and stocks non-negative |
| App.Store.constructor | App.tsx:49-67 | with nothing saved: the seed catalog and empty logs, in a sound state |
| App.Store.Restore | App.tsx:49-67 | each of the four collections as loaded, the saved one or its default, exactly as given |
| App.Store.RecordSale | pages/Sales.tsx:18-59 | outcome as `Checkout`; on acceptance the sale is prepended and the stock taken; on rejection nothing changes; purchases and customers never change; soundness is kept |
| App.Store.RecordPurchase | pages/Purchases.tsx:16-45 | record as `Receive`; for a known product the purchase is prepended and the product restocked; otherwise nothing changes; sales and customers never change; soundness is kept for quantities of at least one |
| App.Store.DeleteProduct | pages/Inventory.tsx:22-26 | once confirmed the catalog is `Remove` of the old one, otherwise unchanged; recorded sales and purchases are left as they are; soundness is kept |
| App.Store.SaveProduct | pages/Inventory.tsx:28-50 | the catalog is `Edit` or `Add` of the old one; recorded sales and purchases are left as they are, so their totals do not follow price changes; ids stay unique given a fresh id |
| App.Store.AddCustomer | pages/Customers.tsx:14-25 | the customer list is `Append` of the old one; nothing else changes |
| App.FirstSession | App.tsx:30-33 | on the seed catalog: selling 3 of 12 is accepted for 15000.00 with 4500.00 profit, asking for 999 is refused with 9 available, and buying 5 at 3600.00 leaves 14 units at that cost |

## Left out

- Rendering: JSX, modals, routing, the sidebar and icons. These are presentation only.
- Saving to and loading from `localStorage`, with JSON encoding. The app loads each of the four collections on its own: the saved one, or its default (the seed catalog, or an empty list). `App.Store.Restore` takes each collection as loaded. The unnamed constructor is the case where nothing was saved.
- The clock and id generation. `Date.now()` ids, sale and purchase timestamps, "today" and the seven-day list are parameters. So is the writing of a day number as "YYYY-MM-DD", which involves time zones.
- Form parsing and `Number(...)` coercion, including `NaN`. Inputs arrive typed. The purchase form's `min="1"` appears only as the condition of the soundness clause of `App.Store.RecordPurchase`.
- Floating point. Money is an exact number of centavos. The margin is an exact real. `toFixed`, `toLocaleString` and the number-to-text conversion of the money columns are left out: those columns are written by a `showMoney` parameter.
- The CSV download (Blob, link, click) and the `confirm()` dialog. The dialog's answer is the `confirmed` parameter of `App.Store.DeleteProduct`.
- Sort ties and key order:
  - the order of equal stocks in the low-stock panel;
  - the order of equal quantities among the best sellers;
  - the key order of `Object.entries`, which makes the best sellers a function of any listing of the grouped map.
- React's batching of the two state updates of a handler. Each handler is one atomic step of the store.
- Case folding beyond the Latin-1 upper-case letters. `Strings.ToLower` lowers A–Z and À–Þ (except ×) and keeps every other character.
- Reports.GroupQuantities: keys such as `__proto__`, which a plain JavaScript object treats specially, are treated like any other product id.
- Reports.CsvTextReadsBack: the whole-text read-back assumes no line break inside any value. It splits lines on "\n" rather than reading quoted line breaks.
- App.Store.SaveProduct: soundness after an edit is not promised, because the form's stock is not checked. `Inventory.EditStocksNonNegative` states when it holds.

## Findings

| source | as written | input that shows it | evidently intended | confidence | as-written member | corrected member |
|---|---|---|---|---|---|---|
| pages/Reports.tsx:47 | the product column is the name between double quotes, with quotes inside the name left single | a product named `"` (or `Monitor 24"`) | quotes inside the name doubled, as rule 7 of section 2 of RFC 4180 requires, so a reader gets six fields back | not executed; high | Reports.UnescapedQuoteMisreads | Reports.EscapedRowReadsBack |

`Reports.CsvText` builds the export from the corrected line `Reports.EscapedCsvRow`. That line is identical to the one the page writes whenever the name holds no quote.
