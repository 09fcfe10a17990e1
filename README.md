# FreshFlow point of sale — a verified model of the cart, checkout and reports

The model covers the till of a grocery point-of-sale web app:

- the **terminal** (`components/PosTerminal.tsx`): the product grid filter, and the cart that products are added to and whose lines go up and down within stock. It also covers the tender and when the "Complete Sale" button is enabled, and the checkout that snapshots a receipt and resets the cart.
- the **store** (`App.tsx`): recording a sale, the staff, product and customer list handlers. Recording a sale lowers stock with a floor at zero, credits loyalty points, and puts the sale at the head of the history.
- the **reports**: revenue, profit and unit totals, per-salesman revenue and count, and the ranking by revenue (`components/Analytics.tsx`); the log filter and its badge styles (`components/Logs.tsx`); and the sidebar entries a role may open (`components/Layout.tsx`).

Modules, one per file:

| file | module | what it holds |
|---|---|---|
| `collections.dfy` | `Collections` | `Option`, `Find`, order-preserving `Filter`, `SumOf`, and the by-key replace and remove |
| `text.dfy` | `Text` | ASCII `toLowerCase`, `includes`, and the `found?.name \|\| fallback` idiom |
| `types.dfy` | `Types` | the records of `types.ts`, the id key functions and the look-ups by id |
| `pricing.dfy` | `Pricing` | line amounts, total, cost and profit, the two change-due formulas, loyalty points |
| `app.dfy` | `App` | the store as a class `Store` with sequence fields, and the functions its handlers compute |
| `pos_terminal.dfy` | `PosTerminal` | the cart functions and lemmas, and the terminal as a class `Cart` |
| `analytics.dfy` | `Analytics` | the totals, the per-salesman chart data and its sums, and the in-place ranking sort |
| `logs.dfy` | `Logs` | the log filter and badge styles |
| `layout.dfy` | `Layout` | the sidebar entries and the role filter |

Modelling choices:

- Money, stock, quantities and points are unbounded integers (whole rupees).
- The tender is the already-parsed number; an empty field is 0.
- Ids and timestamps are parameters. The receipt id and the stored sale id are two separate random values in the source, so they are two parameters. Likewise the receipt's time (components/PosTerminal.tsx:145) and the stored sale's time (App.tsx:87) are two separate clock readings, so `Cart.Checkout` takes `receiptTime` and `saleTime`.
- A cart line is `CartItem(product, quantity)`. The source spreads the product's fields into the line; here the line holds a snapshot of the product.
- The terminal's `given > 0 ? given - total : 0` and the store's `max(0, amountGiven - total)` are two different functions. `Pricing.ChangeDueAgrees` proves they agree once the tender covers the total.

On the checkout guard:

- `handleCheckout` (components/PosTerminal.tsx:137) checks only for an empty cart and a missing salesman. The tender is checked only by the button's enabling condition at line 395. So `PosTerminal.Cart.Checkout` accepts any tender, and `PosTerminal.Cart.CompleteSale` is the button followed by the handler.

## Model

| member | source | states |
|---|---|---|
| Collections.Filter | components/PosTerminal.tsx:54-58 | `filter` keeps exactly the elements satisfying the predicate, in order (a subsequence), each as many times as it occurs in the input (multiset counts), never more than the input; when all satisfy it the input comes back unchanged |
| Collections.Find | components/PosTerminal.tsx:65 | `find` gives None iff no element satisfies the predicate; otherwise the first one that does |
| Collections.FilterDropsOne | components/PosTerminal.tsx:97 | when only the element at i fails the predicate, filtering removes exactly position i |
| Collections.SumOfAppend | components/PosTerminal.tsx:132 | a `reduce` sum over a concatenation is the sum of the two sums |
| Collections.SubsequenceKeepsUniqueKeys | components/PosTerminal.tsx:97 | an order-preserving subsequence of a list with unique ids has unique ids, and each of its ids occurs in the list |
| Collections.ReplaceByKey | App.tsx:109 | the map-replace keeps length and replaces exactly the entries whose id matches |
| Collections.ReplaceByKeyKeepsKeys | App.tsx:109 | replace-by-id keeps every position's id, keeps ids unique, and is the identity when the id is absent |
| Collections.RemoveByKey | App.tsx:114 | filter-by-id keeps exactly the entries with another id, in order and with their multiplicities; no entry with that id remains; unique ids stay unique; an absent id changes nothing |
| Text.Lower | components/PosTerminal.tsx:56 | lower-casing keeps length, leaves no upper-case letter, and changes only A-Z, each by +32 |
| Text.LowerIdempotent | components/PosTerminal.tsx:56 | lower-casing twice is lower-casing once |
| Text.ContainsIffOccurs | components/PosTerminal.tsx:56 | `includes` holds exactly when the text occurs at some offset |
| Text.ContainsEmpty | components/PosTerminal.tsx:56 | the empty search is contained in every name |
| Text.OrDefault | components/PosTerminal.tsx:139-140 | `?.name \|\| fallback` gives the fallback iff the name is missing, empty or equal to the fallback, and otherwise the name found |
| Types.SalesmanName | components/PosTerminal.tsx:139 | the look-up by id is None iff no salesman has that id, and otherwise the name of the first salesman with that id |
| Types.CustomerName | components/PosTerminal.tsx:140 | the look-up by id is None iff no customer has that id, and otherwise the name of the first customer with that id |
| Pricing.ProfitIsTotalMinusCost | components/PosTerminal.tsx:138 | the sale profit Σ(price − cost)×qty equals the total minus the cost of goods |
| Pricing.TotalOfAppend | components/PosTerminal.tsx:132 | the total of two carts joined is the sum of their totals |
| Pricing.TotalNonNegative | components/PosTerminal.tsx:132 | with non-negative prices and quantities the total is non-negative |
| Pricing.TerminalChangeDue | components/PosTerminal.tsx:134 | the balance is given − total once something is tendered and 0 otherwise; it is negative exactly when 0 < given < total |
| Pricing.RecordedChangeDue | App.tsx:84-91 | the recorded change is never negative, at least given − total, and either 0 or given − total |
| Pricing.ChangeDueAgrees | App.tsx:84-91 | when the tender is positive and covers the total, the shown balance and the recorded change are both given − total |
| Pricing.LoyaltyPoints | App.tsx:80 | `floor(total * 0.01)` is the r with 100·r ≤ total < 100·r + 100 |
| App.StockAfterSale | App.tsx:70-76 | the product list keeps length and order; only stock changes; unpurchased products are untouched; purchased stock is never negative; with one line per product, stock becomes max(0, stock − qty) |
| App.CreditLoyalty | App.tsx:78-82 | only customers whose id equals the given non-empty customer id gain floor(total/100) points; nothing else changes; with no customer id the list is unchanged |
| App.CreditLoyaltyTotal | App.tsx:78-82 | with unique customer ids, the points across all customers rise by exactly floor(total/100) if the customer exists, and by 0 otherwise |
| App.RecordSale | App.tsx:98 | the history grows by one, the new sale is at index 0, and the old history follows it |
| App.RecordSalesNewestFirst | App.tsx:98 | after N sales the history is N longer, the sales appear newest first, and the old history follows them |
| App.Store.constructor | App.tsx:35-38 | the store starts with the given collections |
| App.Store.Checkout | App.tsx:67-100 | stock is lowered by StockAfterSale; points are credited by CreditLoyalty; the history gains at its head the sale with change max(0, given − total), profit Σ(price − cost)×qty, payment "Cash" and the items; staff are unchanged |
| App.Store.AddSalesman | App.tsx:102-106 | appends exactly one staff member; nothing else changes |
| App.Store.UpdateSalesman | App.tsx:108-111 | replaces the staff entries with the same id; nothing else changes |
| App.Store.DeleteSalesman | App.tsx:113-116 | removes every staff entry with the id and keeps the rest in order; nothing else changes |
| App.Store.AddProduct | App.tsx:154 | puts the product at the front of the list; nothing else changes |
| App.Store.UpdateProduct | App.tsx:154 | replaces the products with the same id; nothing else changes |
| App.Store.DeleteProduct | App.tsx:154 | removes every product with the id and keeps the rest in order; nothing else changes |
| App.Store.AddCustomer | App.tsx:144 | appends the customer; nothing else changes |
| PosTerminal.FilteredProducts | components/PosTerminal.tsx:53-59 | shows exactly the products in the chosen category whose lower-cased name contains the lower-cased search, in catalogue order and with their multiplicities; "All" with an empty search shows every product |
| PosTerminal.AddToCartExisting | components/PosTerminal.tsx:62-68 | for a product already in the cart: with no stock, or with the line at or above the stock, the cart is unchanged; otherwise only that line gains one unit, in place, and the total rises by its price |
| PosTerminal.AddToCartNew | components/PosTerminal.tsx:61-73 | for a product not in the cart, a line of quantity 1 is appended at the end (the total rises by its price), unless it is out of stock |
| PosTerminal.TotalOfUpdate | components/PosTerminal.tsx:132 | changing one line changes the total by the difference of the two line amounts |
| PosTerminal.AddToCartKeepsInvariants | components/PosTerminal.tsx:65-70 | adding keeps one line per product and positive quantities; for a product from a unique-id catalogue it keeps every line within its product's stock |
| PosTerminal.ClampQuantity | components/PosTerminal.tsx:93 | the new quantity is never negative, is at most the stock unless 0, is q + delta when that lies in [0, stock], is 0 exactly when q + delta ≤ 0 or the stock ≤ 0, and is the stock when q + delta reaches a positive stock (so "+" at the cap changes nothing) |
| PosTerminal.CartAfterUpdate | components/PosTerminal.tsx:89-97 | after + or −, no line has quantity 0 or less, and the cart is never longer |
| PosTerminal.UpdateQuantityExisting | components/PosTerminal.tsx:88-97 | updating a line sets it, in place, to max(0, min(q + delta, maxStock)), where maxStock is the catalogue stock or the line's own quantity for an unlisted product; the line is removed when that is 0; other lines are unchanged |
| PosTerminal.UpdateQuantityAbsent | components/PosTerminal.tsx:89-97 | updating a product with no line leaves the cart unchanged |
| PosTerminal.AdjustLineWithinStock | components/PosTerminal.tsx:91-93 | a line left with units after the update is within its catalogue product's stock |
| PosTerminal.UpdateQuantityKeepsInvariants | components/PosTerminal.tsx:88-97 | updating keeps one line per product, and with a unique-id catalogue keeps every line within stock |
| PosTerminal.CompleteSaleGuardsAgree | components/PosTerminal.tsx:395 | for a tender that is not negative, the button's condition is exactly: non-empty cart, given > 0 and given ≥ total |
| PosTerminal.NegativeTenderEnablesSale | components/PosTerminal.tsx:393-396 | a negative tender enables the button for every non-empty cart (see Findings) |
| PosTerminal.EnabledSaleChangeAgrees | components/PosTerminal.tsx:132-134 | whenever the intended condition holds, the balance shown is not negative and equals the change the store records |
| PosTerminal.CheckoutSubtractsExactly | App.tsx:73 | with one line per product and every line within stock, the floored decrement is an exact subtraction |
| PosTerminal.Cart.constructor | components/PosTerminal.tsx:18-23 | empty cart, empty tender, walk-in customer, no receipt; the salesman is the enforced one, else the first salesman, else none |
| PosTerminal.Cart.AddToCart | components/PosTerminal.tsx:61-73 | the cart becomes CartAfterAdd; the receipt is dismissed unless the product is out of stock; the cart invariant is kept |
| PosTerminal.Cart.UpdateQuantity | components/PosTerminal.tsx:88-98 | the cart becomes CartAfterUpdate; the cart invariant is kept, and so is within-stock against a unique-id catalogue |
| PosTerminal.Cart.Clear | components/PosTerminal.tsx:238 | empties the cart and dismisses the receipt |
| PosTerminal.Cart.NewOrder | components/PosTerminal.tsx:271-272 | dismisses the receipt and leaves the cart, tender and selections as they are |
| PosTerminal.Cart.SetAmountGiven | components/PosTerminal.tsx:379-380 | sets the tender and nothing else |
| PosTerminal.Cart.SelectSalesman | components/PosTerminal.tsx:329 | sets the salesman and nothing else |
| PosTerminal.Cart.SelectCustomer | components/PosTerminal.tsx:342 | sets the customer and nothing else |
| PosTerminal.Cart.Checkout | components/PosTerminal.tsx:136-160 | succeeds iff the cart is non-empty and a salesman is selected, and otherwise changes nothing. On success: the receipt (stamped with the receipt time) has the total, the profit, the balance, "Unknown" for no salesman name and "Walk-in" for no customer name; the store records the sale, stamped with the sale time (an empty customer becomes no customer); cart, tender and customer are reset; with every line within stock, each purchased product's stock drops by exactly its quantity |
| PosTerminal.Cart.CompleteSale | components/PosTerminal.tsx:393-396 | with the intended enabling condition, succeeds iff that condition holds and a salesman is selected; the receipt's balance then equals the recorded change and is not negative |
| Analytics.RecordSaleTotals | components/Analytics.tsx:12-14 | recording a sale adds its total, profit and units to the three store-wide figures |
| Analytics.TotalItemsNonNegative | components/Analytics.tsx:14 | with no negative line quantity, the units sold are never negative |
| Analytics.SalesBy | components/Analytics.tsx:18 | exactly the sales with that salesman id, in history order, each as often as it occurs in the history |
| Analytics.SalesmanData | components/Analytics.tsx:17-24 | one entry per salesman, in staff order, with the salesman's name, the count of their sales and the sum of those sales' totals |
| Analytics.Holders | components/Analytics.tsx:17-18 | the number of staff entries holding an id is 0 iff no staff entry has it |
| Analytics.UniqueHolder | components/Analytics.tsx:17-18 | with unique staff ids, at most one entry holds an id |
| Analytics.CountsCons | components/Analytics.tsx:17-24 | one more sale adds one to the count of each staff entry holding its salesman id |
| Analytics.RevenuesCons | components/Analytics.tsx:17-24 | one more sale adds its total to the revenue of each staff entry holding its salesman id |
| Analytics.CountsAtMostSales | components/Analytics.tsx:17-24 | with unique staff ids, the summed counts are at most the number of sales |
| Analytics.CountsCoverSales | components/Analytics.tsx:17-24 | with unique staff ids and every sale's salesman known, the summed counts equal the number of sales |
| Analytics.RevenuesCoverTotal | components/Analytics.tsx:12-24 | with unique staff ids and every sale's salesman known, the summed revenues equal the total revenue |
| Analytics.TransactionSalesmanLabel | components/Analytics.tsx:133 | "N/A" when no salesman has the sale's id; otherwise the name of the first salesman with that id, or "N/A" when that name is empty |
| Analytics.RankByRevenue | components/Analytics.tsx:101 | the in-place sort leaves the entries ordered by non-increasing revenue and is a permutation of them |
| Analytics.Ranking | components/Analytics.tsx:101 | the ranking is a permutation of the salesman entries, highest revenue first, one per salesman |
| Logs.FilteredLogs | components/Logs.tsx:13-18 | an entry is shown iff its type passes the filter ("ALL" or that type) and its lower-cased message or action contains the lower-cased search; the result is a subsequence with the multiplicities of the shown entries kept, never longer, and "ALL" with an empty search shows every entry |
| Logs.UnknownFilterHidesAll | components/Logs.tsx:14 | a type filter that is neither "ALL" nor a type hides every entry |
| Logs.TypeFilterKeepsThatType | components/Logs.tsx:14-17 | filtering by a type keeps exactly the entries of that type that match the search |
| Logs.LogTypeStyles | components/Logs.tsx:20-27 | only SUCCESS, WARNING and ERROR get their own style; every other tag gets the default |
| Logs.EachTypeItsOwnStyle | components/Logs.tsx:20-27 | the four log types get pairwise different styles, and only INFO gets the default |
| Layout.NavItems | components/Layout.tsx:23 | exactly the entries whose roles include the user's role, in sidebar order |
| Layout.SidebarOrder | components/Layout.tsx:15-21 | the sidebar lists Terminal, Inventory, Staff, Analytics and Settings, in that order |
| Layout.AdminSeesEverything | components/Layout.tsx:15-23 | an administrator sees all five screens, in sidebar order |
| Layout.SalesmanSeesTerminal | components/Layout.tsx:15-23 | a salesman sees the terminal only |
| Layout.SalesmanViewsAreAdminViews | components/Layout.tsx:15-23 | every screen open to a salesman is open to an administrator |

## Left out

- Persistence: the local-storage load and save of every collection (App.tsx:24-27, 49-65) and JSON serialisation. The `Store` starts from collections handed to its constructor.
- Notifications and their timer (App.tsx:99, 123-128), the print modal and `window.print`, all rendering, CSS and the charts.
- The AI assistant (components/AiAssistant.tsx) and the recipe suggestion; services/gemini.ts is not part of this model.
- The sign-in, staff, settings and inventory forms. Inventory's effect on the product list is the `App.Store` product methods.
- The terminal's quick-add box (components/PosTerminal.tsx:75-86) and its new-customer form (components/PosTerminal.tsx:117-130). The latter's effect on the store is `App.Store.AddCustomer`.
- The `enforceSalesman` effect (components/PosTerminal.tsx:47-51). It is the same as `PosTerminal.Cart.SelectSalesman` with the enforced id.
- `Math.random` and `Date.now`: ids and timestamps are parameters.
- `parseFloat(amountGiven) || 0`: the tender is an integer. Fractional rupees, `NaN` and `toFixed`/`toLocaleString` formatting are not modelled.
- Pricing.LoyaltyPoints: computes `floor(total * 0.01)` exactly. It does not model the floating-point rounding of `total * 0.01`.
- Text.Lower: lower-cases ASCII letters only. `toLowerCase` on other characters is not modelled.
- Analytics.RankByRevenue: proves order and permutation but not stability. The source's `sort` also reorders the very array the charts were given; that aliasing is not modelled.
- Analytics.CountsAtMostSales: requires unique staff ids. Two staff entries sharing an id would both count the same sale.
- PosTerminal.Cart.AddToCart: the within-stock invariant is stated in `PosTerminal.AddToCartKeepsInvariants`, not in the method. The method does not receive the catalogue.

## Findings

| source | as written | input that shows it | evidently intended | confidence | as-written member | corrected member |
|---|---|---|---|---|---|---|
| components/PosTerminal.tsx:395 | the button is disabled when the cart is empty, when `given > 0 && changeDue < 0`, or when `given === 0`; a negative tender meets none of these | a cart with one line of total 100 and the number field set to -5 (`type="number"` at line 376 accepts it): the button is enabled and the sale is recorded with `amountGiven = -5` | enabled only for a non-empty cart with `given > 0 && given >= total` | not executed | PosTerminal.NegativeTenderEnablesSale | PosTerminal.Cart.CompleteSale |
