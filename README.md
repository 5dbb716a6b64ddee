# CleanQuote pricing and quote history — a Dafny model

This project models the two in-memory services behind a residential-cleaning quote calculator:

- **The pricing service** (`src/services/api/pricingService.js`). It owns a mutable rate configuration: hourly rate, time estimate per home size, named extra charges, frequency discounts, minimum charge, travel fee and a stored-but-unused recurring discount. It computes an itemised quote in a fixed order: base price, then extras, then the percentage discount, then the minimum floor, then the travel fee, then rounding of the total to cents. It appends saved quotes to the shared history with Id = max existing Id + 1. It also merges configuration updates at top level and resets to the default literal.
- **The quote history service** (`src/services/api/quoteHistoryService.js`). It works over the same history array. It returns the history sorted newest first, the five most recent quotes, a lookup by Id, aggregate statistics (count, revenue, average, most popular home size) and deletion by Id.

Modules, one per concern:

- `Wrappers` (wrappers.dfy) holds `Option`, `Result` and the two not-found errors.
- `Seqs` (seqs.dfy) holds the first-index search behind `find` and `findIndex`.
- `Money` (money.dfy) holds rounding to cents.
- `Rates` (rates.dfy) holds the configuration datatypes, the default literal and the shallow merge.
- `Records` (records.dfy) holds the saved-quote record, the shared `QuoteLog` object, Id search and revenue.
- `Pricing` (pricing.dfy) holds the calculation pipeline, Id assignment and the `PricingService` class.
- `QuoteHistory` (quote_history.dfy) holds the stable date sort, the statistics and the `QuoteHistoryService` class.

Both source files import one JSON array. So both service classes hold a reference to one `QuoteLog` object: a save through `PricingService` is seen by the stats and the delete of `QuoteHistoryService`.

Representation choices:

- Money is an exact `real`.
- `Math.round(x * 100) / 100` is `Floor(x * 100 + 1/2) / 100`.
- Dates are integer timestamps. The save takes the current instant as a parameter.
- The `extras` object is the sequence of its `[key, selected]` entries.
- A JavaScript object whose key order matters (`sizeCount`) is a map plus the sequence of its keys in first-insertion order.
- JavaScript's `x || default` is written out: a missing time estimate and a configured 0 both fall back to 3 hours.
- `>` against `undefined` is false. This is modelled with `Option` in `QuoteHistory.Greater`.

Where the code and its documented intent differ, the model follows the code:

- `minimumApplied` is computed as written: the final total (after the travel fee) equals the minimum, and the subtotal (before the discount) is below the minimum. It is therefore not "the floor changed the price".
- With the default rates, a Weekly Studio clean is 42.50 after discount. It is floored to 50, yet `minimumApplied` is false (`Pricing.FloorWithoutFlag`).
- With an enabled positive travel fee the flag is never set (`Pricing.MinimumAppliedRule`).
- `averageQuote` divides the unrounded revenue by the count and then rounds.

## Model

| member | source | states |
|---|---|---|
| Money.Round2 | src/services/api/pricingService.js:89 | the result is a whole number of cents and lies within half a cent of the input: r − 0.005 ≤ x < r + 0.005 (halves round up) |
| Money.Round2Exact | src/services/api/pricingService.js:89 | an amount already in whole cents is returned unchanged |
| Money.Round2Monotone | src/services/api/pricingService.js:89 | rounding preserves the order of two amounts |
| Money.TwoDecimalsAdd | src/services/api/quoteHistoryService.js:44 | the sum of two whole-cent amounts is a whole-cent amount |
| Rates.DefaultConfig | src/services/api/pricingService.js:8-32 | the default literal: hourly rate 25, minimum 50, the four home sizes, the four frequencies, the five enabled extras with positive amounts, travel fee disabled |
| Rates.Merge | src/services/api/pricingService.js:119 | the spread `{ ...rateConfig, ...newConfig }` over the seven top-level keys; its replace-or-keep behaviour is stated by MergeIsShallow |
| Rates.Combine | src/services/api/pricingService.js:119 | the spread of two patches, later keys winning; used by MergeComposes to state that successive updates compose |
| Rates.MergeIsShallow | src/services/api/pricingService.js:119 | a top-level key named by the patch replaces the old value whole, nested maps included; an unnamed key keeps its old value |
| Rates.MergeComposes | src/services/api/pricingService.js:119 | two updates equal one update with the combined patch (later keys win); the empty patch is the identity; repeating an update changes nothing |
| Records.QuoteLog.constructor | src/services/api/pricingService.js:2 | the shared history starts as the given initial records |
| Records.FirstWithId | src/services/api/quoteHistoryService.js:67 | None exactly when no record has the Id; otherwise the position of the first record with that Id |
| Seqs.FirstIndex | src/services/api/pricingService.js:44 | the search behind `find` and `findIndex`: None exactly when no element satisfies the predicate; otherwise the first position that does |
| Records.RevenueAppend | src/services/api/quoteHistoryService.js:44 | the left-fold sum of totals splits over concatenation |
| Records.RevenueWithout | src/services/api/quoteHistoryService.js:44 | removing the record at i lowers the revenue by exactly its total |
| Records.Revenue | src/services/api/quoteHistoryService.js:44 | the `reduce` of the totals from the left, starting at 0; its properties are RevenueAppend, RevenueWithout and RevenueInWholeCents |
| Records.RevenueInWholeCents | src/services/api/quoteHistoryService.js:44-59 | when every total is in whole cents — as every saved total is, being a rounded totalPrice — the revenue is in whole cents and rounding it changes nothing, so totalRevenue is the exact sum |
| Pricing.FirstWithSize | src/services/api/pricingService.js:44 | None exactly when no catalog entry has the home size; otherwise the position of the first such entry |
| Pricing.TimeEstimate | src/services/api/pricingService.js:55 | the `|| 3` lookup: never 0, and either 3 or the configured estimate for that home size |
| Pricing.ExtraAmount | src/services/api/pricingService.js:60-63 | what one entry adds: the configured amount when the entry is selected and its extra exists and is enabled, else 0 |
| Pricing.ExtraTotal | src/services/api/pricingService.js:59-64 | the `extraTotal +=` accumulation over the entries in order; its properties are ExtraTotalBounds, ExtraTotalAppend, IgnoredExtra, IgnoredOrNot and ExtraTotalPermutation |
| Pricing.Subtotal | src/services/api/pricingService.js:66 | base price plus extras; tied to the returned fields by PipelineOrder |
| Pricing.DiscountFor | src/services/api/pricingService.js:67 | the `|| 0` lookup of the frequency discount; an unknown frequency gives 0 (PipelineOrder) |
| Pricing.Discounted | src/services/api/pricingService.js:68 | the subtotal times (100 − discount)/100; bounded by DiscountBounds |
| Pricing.WithMinimum | src/services/api/pricingService.js:71-73 | after the floor the total is at least the minimum charge; a value already at or above it is unchanged; otherwise it becomes the minimum |
| Pricing.TravelFeeCharged | src/services/api/pricingService.js:76-78 | the amount added after the floor, and the travelFee field returned: the amount when enabled, else 0 (PipelineOrder) |
| Pricing.UnroundedTotal | src/services/api/pricingService.js:66-78 | the final total before rounding is at least the minimum charge plus the travel fee charged |
| Pricing.QuoteFor | src/services/api/pricingService.js:52-91 | calculateQuote as a function of the configuration and the inputs; what its fields mean is stated by BasePriceRule, PipelineOrder, MinimumAppliedRule, MinimumAppliedWithoutTravelFee and TotalAtLeastMinimum |
| Pricing.MaxId | src/services/api/pricingService.js:97 | the largest Id, or 0: non-negative, at least every Id, and 0 or one of the Ids |
| Pricing.NextId | src/services/api/pricingService.js:97-99 | the new Id is at least 1 and greater than every existing Id |
| Pricing.NextIdAfterNumbered | src/services/api/pricingService.js:97-106 | saving onto a history numbered 1..n assigns n + 1 and keeps it numbered 1..n+1, so saves from empty number 1, 2, 3, … without gaps or repeats |
| Pricing.BasePriceRule | src/services/api/pricingService.js:55-56 | an unknown home size or an estimate of 0 prices 3 hours; otherwise base = hourly rate × the configured estimate |
| Pricing.ExtraTotalBounds | src/services/api/pricingService.js:59-64 | with non-negative configured amounts the extra total is non-negative; with no entry selected it is 0 |
| Pricing.ExtraTotalAppend | src/services/api/pricingService.js:59-64 | the extra total over concatenated entries is the sum of the two totals |
| Pricing.IgnoredExtra | src/services/api/pricingService.js:60-64 | an entry that is unselected, unknown, or selected but disabled adds 0 wherever it stands |
| Pricing.DiscountBounds | src/services/api/pricingService.js:67-68 | a 0 discount leaves the subtotal unchanged; a discount in [0, 100] keeps a non-negative subtotal between 0 and itself |
| Pricing.IgnoredOrNot | src/services/api/pricingService.js:60-64 | each entry adds exactly its own amount (or 0), independent of its position |
| Pricing.ExtraTotalPermutation | src/services/api/pricingService.js:60 | the extra total does not depend on the order of the extras object's entries |
| Pricing.PipelineOrder | src/services/api/pricingService.js:66-90 | subtotal = base + extras; an unknown frequency gives discount 0; total = floor(subtotal × (100 − discount)/100) + fee; the returned fee is the amount if enabled, else 0; only the total is rounded |
| Pricing.MinimumAppliedRule | src/services/api/pricingService.js:87 | minimumApplied ⇔ (final unrounded total = minimum ∧ subtotal < minimum); it is false whenever an enabled positive travel fee was added |
| Pricing.MinimumAppliedWithoutTravelFee | src/services/api/pricingService.js:66-87 | with no travel fee, a discount in [0, 100] and a non-negative minimum, minimumApplied ⇔ subtotal < minimum |
| Pricing.FloorWithoutFlag | src/services/api/pricingService.js:66-87 | default rates, Studio, Weekly: the discounted price is 42.5, the total is 50, and minimumApplied is false |
| Pricing.TotalAtLeastMinimum | src/services/api/pricingService.js:71-89 | with a minimum in whole cents and a non-negative travel fee, the rounded total is never below the minimum |
| Pricing.DefaultExampleQuote | src/services/api/pricingService.js:52-90 | default rates, 2 Bedroom, Bi-weekly, pets: base 87.5, extras 15, subtotal 102.5, discount 10, no floor, no fee, total 92.25 |
| Pricing.PricingService.constructor | src/services/api/pricingService.js:8-32 | the configuration starts as the default literal; the catalog and the history are the given data |
| Pricing.PricingService.GetAll | src/services/api/pricingService.js:36-39 | returns the catalog |
| Pricing.PricingService.GetByHomeSize | src/services/api/pricingService.js:42-49 | not-found error for that home size exactly when no entry has it; otherwise the first entry with that home size |
| Pricing.PricingService.CalculateQuote | src/services/api/pricingService.js:52-91 | the loop with its accumulators returns exactly the quote of the pipeline functions for the current configuration |
| Pricing.PricingService.SaveQuote | src/services/api/pricingService.js:94-108 | appends exactly one record and leaves the earlier ones as they were; its Id is max(Ids, 0) + 1 and differs from every existing Id; homeSize, frequency and total (from totalPrice) are copied, and the date is the given instant |
| Pricing.PricingService.GetRateConfig | src/services/api/pricingService.js:111-114 | returns the current configuration |
| Pricing.PricingService.UpdateRateConfig | src/services/api/pricingService.js:117-121 | the new configuration is the top-level merge of the old one with the patch, and it is returned |
| Pricing.PricingService.ResetToDefaults | src/services/api/pricingService.js:124-152 | whatever the prior state, the configuration becomes the default literal (so a second reset changes nothing) |
| QuoteHistory.InsertPermutes | src/services/api/quoteHistoryService.js:10 | inserting adds exactly that record to the multiset |
| QuoteHistory.InsertKeepsDescending | src/services/api/quoteHistoryService.js:10 | inserting into a newest-first sequence keeps it newest first |
| QuoteHistory.InsertKeepsDateOrder | src/services/api/quoteHistoryService.js:10 | the inserted record goes ahead of every record with its date |
| QuoteHistory.InsertByDate | src/services/api/quoteHistoryService.js:10 | puts a record before the first record not newer than it; the result is one longer |
| QuoteHistory.SortByDate | src/services/api/quoteHistoryService.js:10 | the sort by date, newest first, used by getAll and getRecent; the result has the same length; proved correct by SortByDateCorrect |
| QuoteHistory.SortPermutes | src/services/api/quoteHistoryService.js:10 | the sorted copy holds the same records |
| QuoteHistory.SortDescending | src/services/api/quoteHistoryService.js:10 | the sorted copy is newest first |
| QuoteHistory.SortKeepsDateOrder | src/services/api/quoteHistoryService.js:10 | records sharing a date keep their stored relative order (a stable sort) |
| QuoteHistory.SortByDateCorrect | src/services/api/quoteHistoryService.js:10 | the sort is a permutation, newest first and stable |
| QuoteHistory.TallyFacts | src/services/api/quoteHistoryService.js:48-51 | sizeCount has a key exactly for each occurring home size, with its exact count (≥ 1); its key order lists each once; an absent size occurs 0 times |
| QuoteHistory.Count | src/services/api/quoteHistoryService.js:48-51 | reference count of records with a home size: at most the length, and 0 exactly when no record has it |
| QuoteHistory.SizeCounts | src/services/api/quoteHistoryService.js:48-51 | the sizeCount object after the forEach; related to Count by TallyFacts |
| QuoteHistory.KeyOrder | src/services/api/quoteHistoryService.js:48-52 | Object.keys(sizeCount), in first-insertion order; listed keys are exactly the occurring sizes (KeyInOrderOccurs) in first-occurrence order (KeyOrderIsFirstOccurrence) |
| QuoteHistory.KeyInOrderOccurs | src/services/api/quoteHistoryService.js:48-52 | a home size is a key exactly when some record has it, and exactly when sizeCount has an entry for it |
| QuoteHistory.KeyOrderIsFirstOccurrence | src/services/api/quoteHistoryService.js:48-52 | for keys at positions i < j, every occurrence of the later key is preceded by an occurrence of the earlier one |
| QuoteHistory.EarlierKeyOccursBefore | src/services/api/quoteHistoryService.js:48-52 | for one pair of keys and one occurrence of the later key, a position of the earlier key before it |
| QuoteHistory.CountOf | src/services/api/quoteHistoryService.js:52-53 | sizeCount[key]: the count, or undefined (None) for a missing key |
| QuoteHistory.Greater | src/services/api/quoteHistoryService.js:53 | JavaScript `>` on counts: false whenever either side is undefined |
| QuoteHistory.Popular | src/services/api/quoteHistoryService.js:52-54 | the reduce from the seed "N/A"; proved equal to the last maximal key by PopularIsLastMax |
| QuoteHistory.LastMaxIndex | src/services/api/quoteHistoryService.js:52-54 | reference definition: the position of the last key whose count is maximal |
| QuoteHistory.PopularIsKeyOrNA | src/services/api/quoteHistoryService.js:52-54 | the fold yields its seed "N/A" or one of the keys |
| QuoteHistory.PopularIsLastMax | src/services/api/quoteHistoryService.js:52-54 | the strict `>` fold ends on the last key of maximal count, even when "N/A" is itself a key |
| QuoteHistory.MostPopularSize | src/services/api/quoteHistoryService.js:47-54 | on a non-empty history: the result is an occurring home size; its count is maximal; a tie goes to the later key in key order, which KeyOrderIsFirstOccurrence shows is first-occurrence order |
| QuoteHistory.StatsOf | src/services/api/quoteHistoryService.js:31-62 | getStats as a function of the history; its meaning is stated by StatsTotals and MostPopularSize |
| QuoteHistory.StatsTotals | src/services/api/quoteHistoryService.js:34-59 | empty history gives {0, 0, 0, "N/A"}; otherwise the count, round2(sum of totals) and round2(unrounded sum / count) |
| QuoteHistory.ExampleStats | src/services/api/quoteHistoryService.js:31-62 | two 2 Bedroom quotes of 100 and a Studio quote of 50 give 3, 83.33, 250, "2 Bedroom" |
| QuoteHistory.DeleteUndoesSave | src/services/api/quoteHistoryService.js:67-71 | a record saved with the next Id is found first under that Id, and removing it gives back the history before the save |
| QuoteHistory.QuoteHistoryService.constructor | src/services/api/quoteHistoryService.js:1 | the service reads and writes the given shared history |
| QuoteHistory.QuoteHistoryService.GetAll | src/services/api/quoteHistoryService.js:8-11 | returns the records newest first, as a permutation, stable among equal dates; the stored order is not changed |
| QuoteHistory.QuoteHistoryService.GetById | src/services/api/quoteHistoryService.js:14-21 | not-found error for that Id exactly when no record has it; otherwise the first record with that Id |
| QuoteHistory.QuoteHistoryService.GetRecent | src/services/api/quoteHistoryService.js:24-28 | the first min(5, n) records of the newest-first order |
| QuoteHistory.QuoteHistoryService.GetStats | src/services/api/quoteHistoryService.js:31-62 | the loop that fills sizeCount, followed by the folds, returns exactly the statistics function of the history |
| QuoteHistory.QuoteHistoryService.Delete | src/services/api/quoteHistoryService.js:65-72 | on an existing Id: removes and returns the first record with it, the length drops by 1 and the others keep their order; on a missing Id: not-found error and the history is unchanged |

## Left out

- The React components, pages, routing, animations and toasts: presentation only.
- The artificial `delay`/`setTimeout` latency: every operation is a synchronous method.
- Wall-clock time: `new Date().toISOString()` becomes the `now` parameter of `SaveQuote`. Date strings become integers, so unparsable dates (NaN comparisons in the sort) are not modelled.
- IEEE-754 floating point: amounts are exact reals, so rounding artefacts of binary floats (e.g. 1.005 × 100) are not modelled.
- `parseInt` on the Id argument of `getById` and `delete`: Ids are integers.
- The mock JSON modules (catalog and initial history): they are constructor parameters.
- `recurringDiscount` and `travelFee.maxDistance`: they are kept as fields that the settings page can change, but the calculation never reads them, as in the source.
- Error message text: the errors carry the home size or Id, not the formatted message.
- UpdateRateConfig: only the seven known top-level keys are modelled, with well-typed values; unknown extra keys and explicit `undefined` values in the patch are not.
- Aliasing through shallow copies: `getRateConfig` returns an object whose nested maps are shared with the store. The model returns values, so a caller that mutates them in place cannot affect the store.
- Property-key order of JavaScript objects: `Object.keys` lists integer-like keys first in numeric order. The model uses first-insertion order for every key, which matches for non-numeric home-size labels.
- Inherited property names (e.g. an extra named "constructor") are not modelled. The model's configuration maps hold only their own keys.
- Non-boolean truthy values in the extras object are not modelled: `selected` is a `bool`.
- The extras entries come from an object, so their keys are distinct. The model accepts any sequence and sums each entry.
