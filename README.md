# NENWA budget tracker — verified model of its core logic

This project models, in Dafny, the parts of the NENWA budget tracker that compute
something rather than draw it:

- **The graph worker** (`quantum-worker.js`): the node count derived from the number of
  records, the node list, the edge list drawn with `Math.random()`, the node-degree
  dictionary and the average local entropy it posts back.
- **The record store** (`budget.js`): field validation with its ordered list of
  messages, adding an income or expense record (merge into the record with the same
  date, description and category, or append), the per-category spending cap of 1000,
  and deletion by id. The cap test written at budget.js:159 is modelled as written by
  `Budget.AddExpenseAsWritten`; the store's `AddExpense` applies the corrected test
  `Budget.CapAllows` instead (see "## Findings"), so the two disagree on some merges.
- **The app shell** (`main.js`): the damped recursive forecast, the last-five average
  and the deficit/healthy suggestion, the spending entropy with its zero/NaN guard,
  the per-category and per-source totals, month navigation of the calendar, and the
  `YYYY-MM-DD` formatting of dates.
- **The service worker** (`service-worker.js`): the static-asset, API and cacheable
  request predicates, the order in which the fetch handler picks a strategy, the
  caches deleted on activation, and the runtime-cache entries chosen for eviction.

Modules: `Common` (options, JavaScript numbers as `NaN | Num(real)`, filtering, sums,
`findIndex` on a key), `Strings` (the string built-ins the code uses: `String(n)`,
`padStart`, `startsWith`, `includes`, `lastIndexOf`, ASCII case folding, `trim`,
UTF-16 `length`), `QuantumWorker`, `Budget`, `App` and `ServiceWorker`.

External effects become parameters: `Math.random()` is an oracle `rand: nat -> real`
indexed by call number; `Math.log` is a function `ln` assumed non-positive on (0, 1];
whether `new Date(s)` parses is a predicate `dateParses`; the page origin is a
parameter `selfOrigin`. Money and quantities are `real`.

The node count is `min(20, incomeCount + expenseCount + 5)`, the worker posts
`{nodes, edges, avgEntropy, N}`, and the forecast is the damped recursion of
`recursivePredict`.

## Model

| member | source | states |
|---|---|---|
| QuantumWorker.NodeCount | quantum-worker.js:5 | N is at most 20 and at least 5; below 20 it is exactly the record count plus 5, and it is 20 once that sum reaches 20 |
| QuantumWorker.NodeNamesDistinct | quantum-worker.js:19 | different node indices get different `v<i+1>` labels |
| QuantumWorker.BuildNodes | quantum-worker.js:10-21 | exactly N nodes, node i named `v` followed by i+1 in decimal, all names distinct |
| QuantumWorker.Generate | quantum-worker.js:22-30 | the reference definition of the edge loops, row by row and pair by pair, with the oracle's call counter; no contract of its own, its meaning is `EdgePresence` and `GeneratedEdgesShape` |
| QuantumWorker.BuildEdges | quantum-worker.js:22-30 | the nested loops produce exactly the edge list of the reference generator, consuming the random draws in source order |
| QuantumWorker.EdgePresence | quantum-worker.js:25-27 | edge (i, j) is present iff the draw deciding that pair is below 0.8/(j-i) |
| QuantumWorker.PairsBeforeRowValue | quantum-worker.js:22-23 | the loops visit i(2N-i-1)/2 pairs in the first i rows, so N(N-1)/2 in all |
| QuantumWorker.GeneratedEdgesShape | quantum-worker.js:22-30 | every edge has from < to < N, edges come in strictly increasing (from, to) order, no pair twice, at most N(N-1)/2 edges |
| QuantumWorker.CountDegrees | quantum-worker.js:34-38 | the dictionary has an entry exactly for nodes touching an edge, holding the number of edge endpoints at that node |
| QuantumWorker.DegreeOfMember | quantum-worker.js:39-40 | both endpoints of every listed edge have degree at least 1, so `1/degree` is defined and in (0, 1] |
| QuantumWorker.DegreeSumIsTwiceEdges | quantum-worker.js:34-38 | the degrees of nodes 0..N-1 add up to twice the edge count |
| QuantumWorker.LocalEntropyNonNegative | quantum-worker.js:40-41 | each term `-p·ln p` is non-negative when ln is non-positive on (0, 1] |
| QuantumWorker.TotalEntropy | quantum-worker.js:39-42 | the running `totalEntropy` after the first k edges, adding `-p·ln p` for p = 1/degree of each edge's source; no contract of its own, see `TotalEntropyNonNegative` |
| QuantumWorker.TotalEntropyNonNegative | quantum-worker.js:39-42 | the accumulated `totalEntropy` is non-negative under the same assumption |
| QuantumWorker.AverageEntropy | quantum-worker.js:39-43 | 0 without edges, otherwise total entropy divided by the edge count; never negative under the ln assumption |
| QuantumWorker.HandleMessage | quantum-worker.js:3-45 | the posted N, nodes, edges and average entropy, with the bounds, ordering, handshake and non-negativity facts above |
| Budget.DateErrors | budget.js:38-42 | "Date is required" iff the date is empty, "Invalid date format" iff it is non-empty and does not parse, never both |
| Budget.TextErrors | budget.js:45-47 | the description message iff the text is empty or trims to fewer than 2 UTF-16 units |
| Budget.AmountErrors | budget.js:48-54 | at most one amount message: not a number, not positive, or above 1000000; empty iff 0 < amount <= 1000000 |
| Budget.PriceErrors | budget.js:60-64 | at most one price message; empty iff the price is a positive number |
| Budget.QuantityErrors | budget.js:65-71 | at most one quantity message; empty iff the quantity is a positive whole number |
| Budget.ValidateIncome | budget.js:35-55 | a message is reported iff its check fails, messages come in form order one per field, and the list is empty iff every check passes |
| Budget.ValidateExpense | budget.js:35-75 | the same for the four checks of an expense |
| Budget.AtMostOnePerField | budget.js:36-74 | in a form-ordered list no field is reported twice |
| Budget.IncomeValidationFacts | budget.js:38-54 | a missing date is reported only as required; an amount of exactly 1000000 raises no amount message; a larger one raises only "exceeds maximum limit" |
| Budget.ExpenseQuantityFacts | budget.js:65-71 | a positive non-integer quantity is reported only as not whole |
| Budget.CategoryTotal | budget.js:155-157 | the spending recorded under one category, as a keyed sum; no contract of its own, its source form is `CategoryTotalFiltered` |
| Budget.CategoryTotalFiltered | budget.js:155-157 | the category total equals the source's `filter` on the category followed by the `reduce` of `price * quantity` |
| Budget.MergeIncome | budget.js:110-121 | adding grows the list by at most one and leaves every record with a different key untouched |
| Budget.MergeIncomeTotal | budget.js:117-121 | merged or appended, total income grows by exactly the new amount |
| Budget.MergeIncomeKeys | budget.js:111-121 | merge iff a record with the same (date, source, category) exists, then the length is unchanged and only that record's amount grows by the new amount; otherwise the record is appended; ids and keys stay in place |
| Budget.MergeIncomeUnique | budget.js:111-121 | adding keeps (date, source, category) keys unique |
| Budget.MergeExpense | budget.js:164-175 | adding grows the list by at most one and leaves every record with a different key untouched |
| Budget.MergeExpenseKeys | budget.js:165-175 | merge iff a record with the same (date, name, category) exists, then the length is unchanged and only that record's quantity grows, its price kept; otherwise the record is appended; ids and keys stay in place |
| Budget.MergeExpenseUnique | budget.js:165-175 | adding keeps (date, name, category) keys unique |
| Budget.MergeExpenseCategory | budget.js:155-175 | the record's category total grows by exactly the cost the addition adds, every other category is unchanged |
| Budget.MergeExpenseTotal | budget.js:171-175 | total expense grows by exactly the cost the addition adds |
| Budget.CapPreserved | budget.js:155-162 | an addition admitted by the corrected cap test keeps every category at or below 1000 |
| Budget.AddExpenseAsWritten | budget.js:155-175 | the source's rule: rejected iff category total + price × quantity > 1000 (exactly 1000 is accepted), otherwise merged or appended |
| Budget.AsWrittenAgreesOnAppend | budget.js:159-174 | when nothing is merged, the source's cap test and the corrected one agree |
| Budget.AsWrittenExceedsCap | budget.js:159-172 | a concrete addition the source's cap test accepts that takes a category from 900 to 1400 |
| Budget.AsWrittenRejectsWithinCap | budget.js:159-172 | a concrete merge the source's cap test rejects (5 + 1000 > 1000) although it would only bring the category to 10, and which the corrected test admits |
| Budget.DeleteIncomeSpec | budget.js:226-227 | deleting removes exactly the income records with that id, keeps every other record, and is the identity when the id is absent |
| Budget.DeleteIncomeUnique | budget.js:226-227 | deleting income records keeps the (date, source, category) keys unique |
| Budget.DeleteExpenseSpec | budget.js:228-229 | the same for expense records |
| Budget.DeleteExpenseUnique | budget.js:228-229 | deleting expense records keeps the (date, name, category) keys unique |
| Budget.RecordStore.constructor | budget.js:2-3 | both record lists start empty |
| Budget.RecordStore.AddIncome | budget.js:89-121 | the trimmed source is validated; on failure nothing changes and the messages are returned; otherwise the income list becomes the merge-or-append result, expenses untouched |
| Budget.RecordStore.CommitIncome | budget.js:110-121 | the income list becomes the merge-or-append result and the outcome names the merged index or an append |
| Budget.RecordStore.AddExpense | budget.js:132-175 | the trimmed name is validated; on failure nothing changes; with the corrected cap test `CapAllows` in place of the test at budget.js:159 (see "## Findings"), an addition over the cap changes nothing, otherwise the expense list becomes the merge-or-append result; income untouched; a list within the cap stays within it |
| Budget.RecordStore.CommitExpense | budget.js:154-175 | rejected exactly when the corrected cap test fails, otherwise merge-or-append; the cap invariant is kept |
| Budget.RecordStore.DeleteRecord | budget.js:224-238 | "income" or "expense" filters out that id from the named list only; any other kind changes nothing and reports failure |
| App.PredictNextMonth | main.js:496-498 | the growth step never moves a value towards 0: a non-negative value does not shrink, a non-positive one does not grow |
| App.RecursivePredict | main.js:500-506 | the forecast lies between the value and its 5% growth, for any depth and tolerance |
| App.Forecast | main.js:520-521 | the defaulted call `recursivePredict(avg)` lies between the average and its 5% growth, for either sign |
| App.ForecastOfZero | main.js:500-506 | the forecast of 0 is 0 |
| App.ForecastNearZero | main.js:500-505 | the early stop never fires on the first call; for an average within ±0.09 it fires on the second, giving 1.03075 × the average |
| App.Recent | main.js:509-510 | the last five records, or all of them when there are fewer |
| App.RecentMean | main.js:512-518 | 0 without records; otherwise the mean of the last five, that is the value whose product with their count is their sum |
| App.RecentMeanBounds | main.js:512-518 | the average of the last five records (0 when there are none) lies within any bounds on their values that include 0 |
| App.Predict | main.js:508-539 | the deficit suggestion is chosen iff predicted income minus predicted expense is negative |
| App.AdviceFromAverages | main.js:512-535 | for non-negative records, an income average at least 1.05 × the expense average is healthy, one whose growth stays below the expense average is a deficit risk |
| App.TotalIncome | main.js:392 | the sum of the amounts, never negative when no amount is |
| App.TotalExpense | main.js:393 | the sum of `price * quantity`, never negative when no record's cost is |
| App.EntropyTotal | main.js:413 | the total is a number iff every price is truthy, and then equals the total expense |
| App.CalculateEntropy | main.js:412-420 | 0 when the total is 0 or NaN; otherwise minus the sum of p·ln p over positive shares |
| App.EntropyNonNegative | main.js:415-419 | with non-negative record values the spending entropy is never negative |
| App.GroupTotals | main.js:424-433 | the map has a key exactly for each group present, holding the sum of that group's values |
| App.GroupsPartitionTotal | main.js:424-433 | summed once over each key, the groups give the grand total |
| App.ExpenseCategories | main.js:424-427 | each category slice is that category's total, and the slices add up to the total expense of main.js:393 |
| App.IncomeSources | main.js:430-433 | each source slice is that source's total, and the slices add up to the total income of main.js:392 |
| App.MonthBefore | main.js:215-219 | the month stays in 0..11 and the month count 12·year + month drops by one |
| App.MonthAfter | main.js:226-230 | the month stays in 0..11 and the month count rises by one |
| App.NavigationRoundTrip | main.js:214-230 | "next" after "prev" and "prev" after "next" restore the same year and month |
| App.Calendar.constructor | main.js:165-166 | the calendar starts at today's year and month |
| App.Calendar.Prev | main.js:214-221 | the state moves to the month before, 0 wrapping to 11 of the previous year |
| App.Calendar.Next | main.js:224-232 | the state moves to the month after, 11 wrapping to 0 of the next year |
| App.FormatDateForInput | main.js:113-119 | for any year, negative ones included: `String(year)`, a dash, a two-digit field reading as the month index + 1, a dash, a two-digit field reading as the day |
| Strings.PaddedRoundTrip | main.js:116-117 | a number below 100 padded with `padStart(2, '0')` has two digits that read back as the number |
| App.FormatDateRoundTrip | main.js:113-119 | for a non-negative year, the text before the second-last dash is all digits reading as the year, and the two two-digit fields read as the month index + 1 and the day |
| ServiceWorker.LastExtension | service-worker.js:220 | there is an extension to compare iff the path contains a dot |
| ServiceWorker.IsStaticAsset | service-worker.js:218-221 | same origin, and the path ends in a dot followed by one of the twelve extensions, ignoring ASCII case; no contract of its own, its last-dot form is `StaticAssetByLastDot` |
| ServiceWorker.ExtensionByLastDot | service-worker.js:220 | a path ends in "." plus a dot-free listed extension iff the lower-cased text after its last dot is in the list |
| ServiceWorker.StaticAssetByLastDot | service-worker.js:218-221 | a static asset is same-origin with the text after the last dot, case-insensitively, one of css, js, json, png, jpg, jpeg, gif, svg, ico, webp, woff, woff2 |
| ServiceWorker.Handled | service-worker.js:99-106 | the handler goes on only for a GET whose protocol starts with "http" and whose URL does not mention "chrome-extension"; no contract of its own, `RouteOf` passes every other request through |
| ServiceWorker.IsApiRequest | service-worker.js:226-228 | true iff the path starts with "/api/" |
| ServiceWorker.AnyContained | service-worker.js:235 | true iff the Accept text contains one of the listed types |
| ServiceWorker.ShouldCache | service-worker.js:233-236 | throws iff the Accept header is absent; otherwise true iff it mentions image, font, script or style and the request is same-origin |
| ServiceWorker.RouteOf | service-worker.js:94-158 | non-GET, non-http and extension requests pass through; each strategy (HTML network-first, static cache-first, API network-first, runtime cache, throw) is chosen iff its condition holds after the earlier checks fail |
| ServiceWorker.CrossOriginRoutes | service-worker.js:112-157 | a cross-origin request is passed through, sent to the API strategy, or makes the handler throw only when it is not an API call |
| ServiceWorker.SameOriginRoutes | service-worker.js:112-130 | a same-origin request with an Accept header never throws, and a non-HTML static asset is served cache-first |
| ServiceWorker.StaleCaches | service-worker.js:71-76 | the caches deleted are exactly those whose names are not among the four current cache names |
| ServiceWorker.DeleteCaches | service-worker.js:75 | the named caches are gone, every other cache is kept as it was |
| ServiceWorker.ActivationKeepsCurrent | service-worker.js:69-78 | after activation only current caches remain, and none of them was changed |
| ServiceWorker.EvictionSelection | service-worker.js:308-311 | nothing is selected at 50 keys or fewer; otherwise the oldest keys are selected, leaving exactly the last 50 |
| ServiceWorker.Open | service-worker.js:305 | opening a cache creates it empty when missing and changes nothing else |
| ServiceWorker.CleanupAsWritten | service-worker.js:304-315 | the runtime cache is left exactly as it was opened |
| ServiceWorker.CleanupAsWrittenKeepsOverflow | service-worker.js:311 | an over-full runtime cache stays over-full after the cleanup as written |
| ServiceWorker.Cleanup | service-worker.js:304-315 | the corrected cleanup touches only the runtime cache |
| ServiceWorker.CleanupBounds | service-worker.js:308-311 | after the corrected cleanup the runtime cache holds at most 50 keys, the most recent ones, unchanged if it held 50 or fewer |

## Left out

- Rendering: node coordinates on the sphere (quantum-worker.js:12-18, trigonometry), canvas drawing, Chart.js charts, table and calendar HTML, and `safeText`; they only draw.
- Persistence in localStorage and JSON (main.js, budget.js) is I/O.
- `throttle` and the worker's `postMessage` boundary are timing and asynchrony; main.js reads a `metrics` field the worker never posts, and the model follows the worker's actual output.
- `criticalThreshold` in `updateBudget` (a square root of a possibly negative value) and the other floating-point effects: reals are exact, Infinity is not modelled, and `Math.log` is an uninterpreted function.
- Date parsing: whether `new Date(s)` is valid is the parameter `dateParses`; `formatDateForInput` takes the year, month index and day already extracted, and days in a month are not modelled.
- Record ids (`Date.now() + Math.random()`) are supplied by the caller; the delete handler passes `dataset.id`, a string, where stored ids are numbers (budget.js:245-248), so deletion from the UI matches nothing; the model takes the id as a number.
- `addExpense` reads the quantity with `parseInt`, so the "not whole" message cannot arise from the form; the model takes the quantity as any parsed number, which covers that path.
- Records are values: the source's objects could in principle be aliased, which the model does not capture.
- The totals maps of `updateCharts` are keyed by plain strings; prototype-property names such as `__proto__` on a plain object are not modelled, nor the `|| 0` reset of a NaN running total.
- `validateRecord` with a type other than income or expense is never called by the core and is not modelled.
- The Cache, fetch, clients, sync, push and notification calls of the service worker are I/O; only the selection logic is modelled. `cacheDynamic` refers to a `cache` variable that is not in scope (service-worker.js:294), so its per-put eviction always fails; it is not modelled.
- ServiceWorker.RouteOf: the chosen strategy is modelled, not the responses each strategy produces.

## Findings

| source | as written | input that shows it | evidently intended | confidence | as-written member | corrected member |
|---|---|---|---|---|---|---|
| budget.js:159 | the cap test charges `record.price * record.quantity`, but a merge (budget.js:171-172) keeps the existing record's price and only adds the quantity | category Food holds 9 lunches at 100 (900); adding 5 of the same lunch at price 1 passes the test (905) and is merged at price 100, giving 1400. The correction also admits merges the source rejects: 5 lunches at 1, then 5 more at price 200, are rejected (1005) though the merge gives 10 (`Budget.AsWrittenRejectsWithinCap`) | the test charges what the addition really adds, the existing price × the new quantity on a merge, so no category goes over 1000 | not executed | Budget.AsWrittenExceedsCap | Budget.CapPreserved |
| service-worker.js:311 | each selected runtime-cache key, a request, is passed to `caches.delete`, which deletes a whole cache by name; the request becomes the name "[object Request]" | a runtime cache holding 51 entries still holds all 51 after the cleanup | delete the selected entries from the runtime cache itself, leaving its 50 most recent entries | not executed | ServiceWorker.CleanupAsWrittenKeepsOverflow | ServiceWorker.CleanupBounds |
