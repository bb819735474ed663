# Demo manager: revenue ledger and metrics aggregation

A Dafny model of the two pieces of logic behind the demo manager's customer and
analytics screens:

- **The customer store** (`src/store/customerStore.ts`). Customer profiles each
  carry an embedded revenue ledger: the sales in insertion order, a cached
  `totalAmount` and a `lastUpdated` stamp. There are four state transformers:
  `setSelectedCustomer` sets the selection; `addCustomer`, `updateCustomer` and
  `addDemoRevenue` replace the customer list wholesale. Here the store is an immutable
  `Store(customers, selected)` value and each transformer is a pure function from
  the old store to the new one (module `CustomerStore`; the seed customers are in
  `SeedData`). The random ids and the `new Date()` readings become parameters. The
  ledger invariant is that the cached total equals the sum of the sale amounts.
  The lemmas about it are in `LedgerProperties`. They cover single calls and any
  run of calls whose updates leave `revenue` alone (`Run`).
- **The metrics aggregator** (`src/components/analytics/AnalyticsView.tsx`). The
  view computes three things from a demo snapshot and a customer snapshot:
  - `calculateMetrics`: total demos, rounded mean attendance, the global
    conversion rate over distinct sold demo ids, and total revenue from the
    cached ledger totals;
  - `demoTypeData`: the pie-chart slice of each category;
  - `demoPerformance`: one row per category with its demo count, mean
    attendance, revenue and conversion.

  These are the pure functions of module `Analytics`. Their properties are in
  `AnalyticsProperties`.

Support modules: `Wrappers` (`Option`), `Seqs` (the reference `Sum`, the left
fold that `reduce` performs, and `filter`), `JsMath` (`Math.round` of a
non-negative ratio, written `(2a + b) / (2b)`, and `toLowerCase`).

Behaviour kept as the code has it:
- **Selection is not refreshed.** The selection keeps the object that was
  selected. `updateCustomer` and `addDemoRevenue` replace customers with new
  objects built by spreads rather than changing the old ones, so the selection
  keeps showing the customer as it was when selected. The contracts of
  `AddCustomer`, `UpdateCustomer` and `AddDemoRevenue` say `r.selected == s.selected`.
- **All matching customers change.** Both `updateCustomer` and `addDemoRevenue`
  map over the whole list, so every customer whose id matches is changed.
- **Partial updates can write the ledger.** `updateCustomer` accepts a
  `revenue` field, and an `id` field, and writes each as given. A `revenue` in
  the update can therefore break the ledger invariant, and
  `UpdateWithRevenueCanBreakInvariant` shows an instance.
- **Global conversion with no demos.** With no demos but some sales, the global
  conversion rate is JavaScript `Infinity`, because `Infinity || 0` is
  `Infinity`. The model has an explicit `Infinite` value for it. With no demos
  the rate is 0 only when there are also no sales (`NaN || 0`).
- **Sold ids are not checked.** The global numerator counts distinct sold demo
  ids without checking them against the demo list, so the rate can pass 100.
  The per-category conversion counts every matching sale, with multiplicity.
  This asymmetry is kept.

## Model

| member | source | states |
|---|---|---|
| Seqs.Reduce | src/store/customerStore.ts:213 | `reduce((sum, s) => sum + s.amount, 0)`, a left fold, gives the same total as the reference sum of the sequence |
| Seqs.FoldIsSum | src/store/customerStore.ts:213 | a left fold with `+` from any start value equals the start value plus the reference sum |
| Seqs.Filter | src/components/analytics/AnalyticsView.tsx:85 | `filter` keeps exactly the elements satisfying the predicate: each occurs as often as in the input if it qualifies and not at all otherwise, and the result is no longer than the input |
| JsMath.RoundRatio | src/components/analytics/AnalyticsView.tsx:17 | `Math.round(a / b)` for a ≥ 0 and b > 0 lies within half of a/b, with halves going up (2a − b < 2b·r ≤ 2a + b) |
| JsMath.RoundRatioUnique | src/components/analytics/AnalyticsView.tsx:17 | only one integer meets that rounding bound, so the rounding is fully determined |
| JsMath.PercentPastHundred | src/components/analytics/AnalyticsView.tsx:94-96 | a rounded percentage of m out of n is at least 100 once m ≥ n, and more than 100 once 200m ≥ 201n |
| JsMath.Lower | src/components/analytics/AnalyticsView.tsx:43 | `toLowerCase` keeps the length, leaves no upper-case letter and leaves every other character in place |
| CustomerStore.ReplaceWhere | src/store/customerStore.ts:194-196 | the id-matching `map` keeps the length, transforms exactly the customers with the id, and is the identity for an unknown id |
| CustomerStore.SetSelectedCustomer | src/store/customerStore.ts:181 | selecting sets the selection (possibly to none) and leaves the customer list untouched |
| CustomerStore.EmptyRevenue | src/store/customerStore.ts:186-190 | a new ledger has no sales and a zero total |
| CustomerStore.AddCustomer | src/store/customerStore.ts:182-192 | appends exactly one customer at the end with every earlier customer unchanged; the new one carries the given id, the draft's profile and an empty ledger whatever revenue the draft held |
| CustomerStore.Merge | src/store/customerStore.ts:195 | the spread `{ ...customer, ...updates }`: each field the update mentions overwrites, each field it omits keeps its old value (id and revenue included) |
| CustomerStore.UpdateCustomer | src/store/customerStore.ts:193-197 | keeps the list length, leaves customers with another id untouched, merges the update into each matching customer, and leaves the store identical for an unknown id |
| CustomerStore.DemoSale | src/store/customerStore.ts:202-210 | the recorded sale carries the given demo id and amount, quantity 1 and product name `<demoType> Package` |
| CustomerStore.Credit | src/store/customerStore.ts:212-221 | old sales are a prefix of the new ones with exactly the new sale appended, the total is the sum of all sale amounts whatever it was before, and id and profile are unchanged |
| CustomerStore.AddDemoRevenue | src/store/customerStore.ts:198-224 | keeps the list length, leaves customers with another id untouched, credits each matching customer, and leaves the store identical for an unknown customer id |
| SeedData.SeedLedgersConsistent | src/store/customerStore.ts:97-176 | the seed ledgers satisfy the invariant: 150000 + 75000 = 225000 and 45000 = 45000 |
| LedgerProperties.CreditAddsAmount | src/store/customerStore.ts:212-213 | on a consistent ledger, the recomputed total is the old total plus the new amount |
| LedgerProperties.AddCustomerKeepsInvariant | src/store/customerStore.ts:182-191 | adding a customer keeps every ledger consistent |
| LedgerProperties.AddDemoRevenueKeepsInvariant | src/store/customerStore.ts:198-224 | every credited ledger is consistent afterwards even if it was not before, so the store-wide invariant is kept |
| LedgerProperties.UpdateKeepsInvariant | src/store/customerStore.ts:193-197 | an update that does not mention `revenue` keeps every ledger consistent |
| LedgerProperties.UpdateWithRevenueCanBreakInvariant | src/store/customerStore.ts:195 | an update carrying `revenue` can leave a ledger whose total disagrees with its sales |
| LedgerProperties.UpdateNothingIsIdentity | src/store/customerStore.ts:193-197 | an update that mentions no field leaves the store as it was |
| LedgerProperties.UpdateIdempotent | src/store/customerStore.ts:193-197 | applying the same update twice equals applying it once, renaming updates included |
| LedgerProperties.VirtualSaleExample | src/store/customerStore.ts:202-219 | one earlier sale of 300 plus 500 from a "Virtual" demo gives two sales, total 800, the new one named "Virtual Package" |
| LedgerProperties.RunKeepsInvariant | src/store/customerStore.ts:181-224 | any run of select, add, update-without-revenue and credit calls from a consistent store ends in a consistent store |
| Analytics.MeanAttendees | src/components/analytics/AnalyticsView.tsx:17 | the rounded mean of the attendees (halves up), and 0 when there are no demos |
| Analytics.AllSales | src/components/analytics/AnalyticsView.tsx:21 | the flattened sales hold exactly the sales of some customer's ledger |
| Analytics.AllSalesConcat | src/components/analytics/AnalyticsView.tsx:21 | flattening a concatenation of customer lists concatenates their flattenings, so every ledger's sales appear in order and with multiplicity |
| Analytics.AllSalesSingleton | src/components/analytics/AnalyticsView.tsx:21 | a single customer contributes exactly its own ledger's sales |
| Analytics.SoldDemoIds | src/components/analytics/AnalyticsView.tsx:20-22 | the distinct-count numerator holds exactly the demo ids some sale in some ledger is attributed to |
| Analytics.ConversionRate | src/components/analytics/AnalyticsView.tsx:19-23 | the rounded percentage of distinct sold demo ids per demo; 0 with no demos and no sales; `Infinity` with no demos but some sales |
| Analytics.CalculateMetrics | src/components/analytics/AnalyticsView.tsx:15-36 | total demos is the demo count, and the mean attendance, conversion rate and total revenue (sum of the cached ledger totals) are as above |
| Analytics.InCategory | src/components/analytics/AnalyticsView.tsx:85 | a category's demos are exactly the demos whose lowercased location is the key, each with its multiplicity |
| Analytics.DemoIds | src/components/analytics/AnalyticsView.tsx:86 | a category's demo-id set holds exactly the ids of its demos |
| Analytics.RelatedSales | src/components/analytics/AnalyticsView.tsx:89-91 | filtering each customer's sales and flattening gives the same sequence as filtering all sales |
| Analytics.CategoryPerformance | src/components/analytics/AnalyticsView.tsx:84-105 | a row's demo count, mean attendance, revenue (sum over all matching sales) and conversion (rounded percentage of matching sales per demo, 0 for an empty category) |
| Analytics.DemoPerformance | src/components/analytics/AnalyticsView.tsx:84-105 | one row per catalog entry, in catalog order |
| Analytics.DemoTypeData | src/components/analytics/AnalyticsView.tsx:41-44 | one slice per catalog entry, named after the category and sized by its demo count |
| AnalyticsProperties.TotalRevenueIsSalesSum | src/components/analytics/AnalyticsView.tsx:26-28 | with every ledger consistent, total revenue equals the sum of every sale amount across all customers |
| AnalyticsProperties.CachedTotalsMatchSales | src/components/analytics/AnalyticsView.tsx:26-28 | with every ledger consistent, the cached totals add up to the sum of every sale amount across all customers |
| AnalyticsProperties.CreditRaisesRevenue | src/components/analytics/AnalyticsView.tsx:26-28 | crediting the only customer with a given id, whose ledger is consistent, raises total revenue by exactly the amount |
| AnalyticsProperties.AddCustomerKeepsMetrics | src/components/analytics/AnalyticsView.tsx:15-36 | adding a customer leaves all four headline metrics unchanged |
| AnalyticsProperties.SoldIdsAfterCredit | src/components/analytics/AnalyticsView.tsx:20-22 | after a credit the sold-id set gains the credited demo id if the customer exists, and nothing else |
| AnalyticsProperties.ResaleKeepsConversion | src/components/analytics/AnalyticsView.tsx:20-23 | another sale on an already sold demo id leaves the global conversion rate unchanged |
| AnalyticsProperties.RateFollowsSoldIds | src/components/analytics/AnalyticsView.tsx:23 | the global conversion rate depends on the customers only through the set of sold demo ids |
| AnalyticsProperties.SeedSoldIds | src/components/analytics/AnalyticsView.tsx:20-22 | the seed ledgers' sold-id set is {d1, d2, d3} |
| AnalyticsProperties.ConversionCanExceedHundred | src/components/analytics/AnalyticsView.tsx:20-23 | one demo against the seed ledgers gives a global conversion rate of 300 |
| AnalyticsProperties.ConversionExample | src/components/analytics/AnalyticsView.tsx:23 | four demos and two distinct sold ids give 50 |
| AnalyticsProperties.PieMatchesPerformance | src/components/analytics/AnalyticsView.tsx:41-44 | each pie slice has the same name and value as the demo count of the matching performance row |
| AnalyticsProperties.CategoryConversionCountsEverySale | src/components/analytics/AnalyticsView.tsx:94-96 | matching sales count with multiplicity: at least as many as demos gives ≥ 100, and 0.5% more gives > 100 |
| AnalyticsProperties.CategoryConversionExample | src/components/analytics/AnalyticsView.tsx:94-96 | two demos in a category and three matching sales give a conversion of 150 |
| AnalyticsProperties.FilteredSumIsMaskedSum | src/components/analytics/AnalyticsView.tsx:90-93 | summing the sales kept by the demo-id filter equals summing every sale with the non-matching amounts zeroed |
| AnalyticsProperties.CategoryRevenueCountsMultiplicity | src/components/analytics/AnalyticsView.tsx:86-93 | a category's revenue adds the amount of every occurrence of every sale, in any ledger, attributed to one of its demos, and nothing else |
| AnalyticsProperties.CategoryCountsBounded | src/components/analytics/AnalyticsView.tsx:85 | with distinct category keys, the category demo counts add up to at most the number of demos |
| AnalyticsProperties.PerformanceCountsBounded | src/components/analytics/AnalyticsView.tsx:84-100 | with distinct keys, the performance rows' demo counts add up to at most the number of demos |

## Left out

- JSX, recharts, the icons and `COLORS`: presentation only.
- The `monthlyTrends` table and the static "Key Insights" text: constant data with no behaviour.
- The `metrics` cards, the `toFixed(1)` "k" strings and the progress-bar `percentage`: display formatting in floating point.
- zustand's `create`/`set` and the React hooks: replaced by a store value passed in and returned.
- `Math.random()` ids and `new Date()`: these are parameters. `addDemoRevenue` draws a fresh sale id and reads the clock twice (the sale's date and `lastUpdated`) for each matching customer, inside the `map` callback; the model uses one `saleId`, one `saleDate` and one `now` for all of them, which only matters when several customers share the id. Id uniqueness and `lastUpdated` monotonicity are not proved, because the code does not guarantee them.
- The demo store and the demo-type table are not part of this model. `Demo` holds only the three fields the view reads. `DemoType` holds a name, a description, a duration and a capacity. Only the name is read by the computations; the whole definition is carried into each performance row.
- JavaScript numbers: amounts are unbounded integers. `(sold / total) * 100` and `sum / count` are rounded as exact rationals, so floating-point error in the quotient is not modelled.
- JsMath.Lower: maps only the ASCII letters; Unicode case mapping is not modelled.
- `NaN` and `Infinity` beyond the guarded ratios: with integers the only other source is division by zero, and every such division is guarded or modelled explicitly.
- Partial updates that set a required field to an explicit `undefined` are not modelled: `Partial<CustomerProfile>` admits them, but the result would be a customer record lacking a required field, which the `Customer` datatype cannot represent. `Update` distinguishes only an absent field from one with a value. Clearing the optional `currentSolution` is modelled.
