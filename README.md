# Expense tracker dashboard: a verified model

The application is a personal expense-tracking dashboard. The user records,
edits and deletes expenses, browses them in a filterable table, and sees
summary cards, breakdowns and charts. It talks to a small REST resource and
falls back to local data whenever the backend fails. This project models the
logic under the views, one Dafny module per source file:

- `Records` holds the expense record and the two folds every view is built
  from: `filter`, and the `reduce` that sums `amount`. Both recurse on the
  last element, the way JavaScript's left `reduce` accumulates.
- `Grouping` is the shared accumulator `acc[key] = (acc[key] || 0) + amount`.
  It is an association list in first-insertion order, because that is how a
  string-keyed object lists its entries. It also holds the stable descending
  sort used to rank the entries.
- `Api` models the REST client (`src/services/api.ts`). What `fetch`
  delivered is an input: an `ok` response with its parsed body, a non-`ok`
  status, or a thrown error. Every call is proved to settle as fulfilled.
- `Store` models the collection in `src/App.tsx` as a class with the fields
  `expenses`, `loading` and `showExpenseForm`. Each handler is given the
  client call as a function from what it sends to how the call settles, so
  the model shows exactly what a handler forwards, and the `catch` path is
  kept.
- `SectionCards`, `AnalyticsPage` and `ExpenseChart` model the aggregations:
  - the total and the this-month / last-month sums, including the rollover
    to December;
  - the percent change and its badge;
  - the top category and the average;
  - the three breakdowns and their listings;
  - the date-sorted trend and the ranked category and method series.
- `ExpenseTable` models the category and text filters, the amount cell and
  the delete guard.
- `ExpenseForm` models the schema validation, the per-field error map, date
  truncation, the state updates and the submitted record.
- `CurrencySelector` models the currency switch. It is split at the `await`
  into `BeginChange` and `FinishChange`, so the loading flag is visible while
  the request runs.
- `NavContext`, `AppSidebar` and `NavMain` model the navigation state, the
  title-to-page map and the active-item rule.

The host is abstracted into parameters:
- `now` / `nowIso` / `nowMillis` stand in for `new Date()`, `toISOString()`
  and `Date.now()`.
- `dateOf` stands in for `new Date(text)` read back as year, month and day.
- `showAmount` and `parseAmount` stand in for number-to-text and
  `parseFloat`.

The month label (`"February 2026"`) becomes the pair `(year, month)`. The
day label (`"Feb 5"`) becomes the pair `(month, day)`. Each label is a
one-to-one function of its pair.

Four behaviours of the code are worth stating:
- When the API yields nothing or fails, the loader installs the six mock
  records. It does not leave the collection empty.
- Every sum and chart adds up `amount`. None uses the converted amount that
  the table shows (`ExpenseChart.ChartsIgnoreConversion`,
  `ExpenseTable.CellDiffersFromSums`).
- `(a, b) => a[1] > b[1] ? a : b` lets the later entry win a tie for top
  category, not the first one seen (`SectionCards.TopCategoryLastMax`).
- The average is the exact quotient. Rounding to two decimals is presentation
  only (see below).

## Model

| member | source | states |
|---|---|---|
| Records.Filter | src/App.tsx:144 | `Array.prototype.filter`: never longer than its input; its meaning is pinned by FilterMembers, FilterCount and FilterIsSubsequence |
| Records.SumAmounts | src/components/section-cards.tsx:34-37 | the `reduce((sum, e) => sum + e.amount, 0)` fold; SumConcat and SumPartition state how it splits |
| Records.FilterMembers | src/App.tsx:144 | a filter keeps exactly the members satisfying the predicate |
| Records.SumPartition | src/components/section-cards.tsx:38-59 | the sum over the records a filter keeps plus the sum over those it drops is the total |
| Records.FilterFilter | src/components/expense-table.tsx:281-296 | two filters applied in a row equal one filter on the conjunction |
| Records.FilterIsSubsequence | src/components/expense-table.tsx:280-299 | a filter's result is an order-preserving subsequence of its input |
| Records.FilterCount | src/App.tsx:144 | a filter keeps every copy of a passing record and no copy of a failing one |
| Grouping.Lookup | src/pages/analytics-page.tsx:20 | `acc[k] \|\| 0`: 0 for a key that is absent, the first entry's value for the first entry's key |
| Grouping.GroupSum | src/pages/analytics-page.tsx:17-46 | the accumulating `reduce` of the breakdowns (also section-cards.tsx:68-74 and expense-chart.tsx:67-106); computes the buckets, characterised by GroupSumKeys, GroupSumHasKey, GroupSumLookup and GroupSumTotal |
| Grouping.Bump | src/components/section-cards.tsx:70 | an existing key keeps its place and a new key goes last; the values' total grows by the added amount |
| Grouping.BumpLookup | src/components/section-cards.tsx:70 | after the update only the updated key's value changes, by exactly the added amount |
| Grouping.Tally | src/components/section-cards.tsx:68-74 | the in-place accumulation loop computes the reducer's result |
| Grouping.GroupSumKeys | src/pages/analytics-page.tsx:18-46 | the accumulator's keys are the records' keys, deduplicated in first-occurrence order |
| Grouping.GroupSumDistinctKeys | src/pages/analytics-page.tsx:18-46 | no key appears twice in an accumulator |
| Grouping.GroupSumHasKey | src/pages/analytics-page.tsx:18-46 | a key is present iff some record has it |
| Grouping.GroupSumLookup | src/pages/analytics-page.tsx:18-24 | each key's value is the sum of `amount` over the records with that key |
| Grouping.GroupSumTotal | src/pages/analytics-page.tsx:18-46 | the values of any breakdown add up to the sum over all records |
| Grouping.GroupSumEntries | src/pages/analytics-page.tsx:18-24 | every entry holds the sum over the records with its key |
| Grouping.InsertDesc | src/pages/analytics-page.tsx:63 | inserting into the ranking adds exactly that entry (multiset) |
| Grouping.SortDesc | src/pages/analytics-page.tsx:63 | the ranking is a permutation of its input |
| Grouping.SortDescSorted | src/pages/analytics-page.tsx:63 | the ranking is in non-increasing order of value |
| Grouping.SortDescDistinct | src/pages/analytics-page.tsx:62-63 | ranking keeps keys distinct |
| Grouping.SortDescSum | src/pages/analytics-page.tsx:62-63 | ranking does not change the total of the values |
| Grouping.InsertDescTied | src/pages/analytics-page.tsx:62-63 | an inserted entry goes ahead of every entry with its own value and leaves the others' relative order |
| Grouping.SortDescStable | src/pages/analytics-page.tsx:62-63 | the ranking is stable: entries with equal values keep their relative order from the input, as `Array.prototype.sort` does |
| Grouping.GroupSumPointwise | src/components/expense-chart.tsx:73 | the accumulator depends on each record only through its key and its amount |
| Api.FetchExpenses | src/services/api.ts:25-40 | never rejects; an array body is returned as is and a wrapper's `data` list as that list; `[]` on 404, other statuses, thrown errors, null and unparsable bodies and a wrapper without `data` |
| Api.ConvertCurrency | src/services/api.ts:42-60 | never rejects; an array body or a wrapper's `data` list comes back as the converted list; `[]` on any failure and on null or unparsable bodies; exactly an object without `data` comes back as itself, not as a list |
| Api.ServerRecord | src/services/api.ts:72-73 | `data.data \|\| data` on an `ok` single-record body: the record itself or the one under `data`; none on other outcomes; the CreateExpense and UpdateExpense contracts say what it decides |
| Api.CreateExpense | src/services/api.ts:62-84 | never rejects; the server's record when it sends one, else the draft's fields with `id` = now in ms and both timestamps = now |
| Api.UpdateExpense | src/services/api.ts:86-107 | never rejects; the server's record, else the requested id, the sent fields and `updated_at`, and `created_at` = now |
| Api.DeleteExpense | src/services/api.ts:109-118 | always fulfils, whatever the response |
| Api.FetchShapesAgree | src/services/api.ts:35 | a bare list and the same list under `data` load identically; an empty wrapper loads like a 404 |
| Api.ConvertDiffersOnEmptyWrapper | src/services/api.ts:54 | the converter returns a `data`-less wrapper as is, where the loader gives `[]` |
| Store.Loaded | src/App.tsx:93-96 | the installed list is never empty: the API's non-empty list, otherwise the mock records |
| Store.MockIds | src/App.tsx:18-79 | six mock records with ids 1 to 6 |
| Store.MockExpenses | src/App.tsx:18-79 | the six local records; MockIds and LoadFallsBack state what they carry and when they show |
| Store.LoadFallsBack | src/App.tsx:90-96 | with the real client, any failure or an empty list shows the mock records |
| Store.CreatePayload | src/App.tsx:106-112 | the create call receives exactly amount, category, description, date and payment method |
| Store.CreatePayloadDropsExtras | src/App.tsx:106-112 | id, timestamps and conversion fields of the input do not reach the create call |
| Store.UpdatePayloadOf | src/App.tsx:124-131 | the update body is the five editable fields plus `updated_at` = now |
| Store.ReplaceById | src/App.tsx:132-134 | same length; each element with the target id becomes the returned record, every other element is unchanged |
| Store.RemoveById | src/App.tsx:144 | deletion never lengthens the list |
| Store.RemoveByIdKeeps | src/App.tsx:144 | deletion keeps exactly the records with another (or no) id, every copy of each, in their original order |
| Store.RemoveByIdIdempotent | src/App.tsx:144 | deleting an id twice equals deleting it once |
| Store.RemoveByIdSum | src/App.tsx:144 | the amounts kept plus the amounts deleted equal the old total |
| Store.UpdateThenDelete | src/App.tsx:121-149 | deleting after an update that keeps the id is the same as deleting outright |
| Store.ExpenseStore.constructor | src/App.tsx:82-84 | no records, loading, form closed |
| Store.ExpenseStore.Load | src/App.tsx:86-100 | installs the loaded list (API list or mock records) and clears `loading` |
| Store.ExpenseStore.AddExpense | src/App.tsx:104-119 | on success appends exactly the returned record at the end and closes the form; on failure nothing changes |
| Store.ExpenseStore.UpdateExpense | src/App.tsx:121-139 | a falsy id changes nothing; on success replaces every record with that id; on failure nothing changes |
| Store.ExpenseStore.DeleteExpense | src/App.tsx:141-149 | on success removes every record with the id; on failure nothing changes |
| Store.ExpenseStore.SetShowExpenseForm | src/App.tsx:190-211 | the create button and the drawer set only the form flag |
| Store.ExpenseStore.RenderPage | src/App.tsx:153-179 | the loading view iff loading, otherwise the current page |
| Store.AddWithClient | src/services/api.ts:74-83 | with the real client, adding always succeeds, and a local record gets the timestamp id |
| SectionCards.Total | src/components/section-cards.tsx:34-37 | the total of no records is 0 |
| SectionCards.PrevMonth | src/components/section-cards.tsx:53 | the month before, as a valid month whose index is one less |
| SectionCards.PrevMonthRollover | src/components/section-cards.tsx:53-57 | January goes to December of the year before, every other month to the month before |
| SectionCards.ThisMonth | src/components/section-cards.tsx:38-47 | the sum over the records of now's year and month; MonthSumsSelect characterises it |
| SectionCards.LastMonth | src/components/section-cards.tsx:49-59 | the sum over the records of the previous month, rolled back across the year; MonthSumsSelect and PrevMonthRollover characterise it |
| SectionCards.MonthSumsSelect | src/components/section-cards.tsx:38-59 | this month's sum counts exactly the records of now's year and month, last month's exactly those of the previous month |
| SectionCards.MonthsDisjoint | src/components/section-cards.tsx:38-59 | no record counts in both month sums |
| SectionCards.PercentChange | src/components/section-cards.tsx:61-64 | 0 when last month is 0, else r · last = (this − last) · 100 |
| SectionCards.BadgeMatchesLabel | src/components/section-cards.tsx:115-123 | with last month > 0 the rising badge shows iff the footer says "Increased" |
| SectionCards.BadgeDisagreesFromZero | src/components/section-cards.tsx:115-123 | with nothing last month, "Increased" shows beside a falling 0.0% badge |
| SectionCards.CategoryBreakdownSpec | src/components/section-cards.tsx:68-74 | keys are exactly the categories present, each holding its category's sum; values total the overall sum |
| SectionCards.Pick | src/components/section-cards.tsx:77 | `a[1] > b[1] ? a : b`: one of its arguments, at least as large as both, and the second on a tie |
| SectionCards.TopCategory | src/components/section-cards.tsx:76-79 | ("None", 0) for no entries; never below 0 and at least every entry; either the placeholder or an entry |
| SectionCards.TopCategoryLastMax | src/components/section-cards.tsx:76-79 | the placeholder iff all values are negative; otherwise an entry no later entry reaches, so on a tie the later entry wins |
| SectionCards.Average | src/components/section-cards.tsx:81-82 | r · count = total for a non-empty list, 0 otherwise |
| SectionCards.ComputeCards | src/components/section-cards.tsx:34-82 | the card figures are the total, count, month sums, percent change, top category, number of categories and average |
| AnalyticsPage.MonthOf | src/pages/analytics-page.tsx:29-32 | the month label's key, the record's (year, month); MonthRowIsThisMonth ties it to the card sum |
| AnalyticsPage.Breakdowns | src/pages/analytics-page.tsx:18-100 | category entries ranked, method and month entries as accumulated |
| AnalyticsPage.ListingsSumToTotal | src/pages/analytics-page.tsx:18-46 | each of the three listings adds up to the total |
| AnalyticsPage.CategoryListingRanked | src/pages/analytics-page.tsx:62-63 | the category listing is non-increasing, a permutation of the breakdown, one row per category, each its category's sum |
| AnalyticsPage.UnrankedListingsInFirstSeenOrder | src/pages/analytics-page.tsx:83-100 | method and month rows appear in first-occurrence order |
| AnalyticsPage.MonthRowIsThisMonth | src/pages/analytics-page.tsx:27-37 | one bucket per calendar month: now's month row equals the dashboard's this-month sum |
| ExpenseChart.DayOf | src/components/expense-chart.tsx:69-72 | the day label's key, the record's (month, day), with no year; TrendMergesYears states the consequence |
| ExpenseChart.InsertByDate | src/components/expense-chart.tsx:63-65 | one insertion step of the date sort adds exactly that record (multiset) |
| ExpenseChart.SortByDate | src/components/expense-chart.tsx:63-65 | the sorted copy is a permutation of the records |
| ExpenseChart.SortByDateSorted | src/components/expense-chart.tsx:63-65 | the sorted copy is in calendar order |
| ExpenseChart.SortByDateSumWhere | src/components/expense-chart.tsx:63-74 | sorting does not change any filtered sum |
| ExpenseChart.TrendData | src/components/expense-chart.tsx:62-80 | the trend is the day-label accumulation over the date-sorted copy |
| ExpenseChart.TrendPoints | src/components/expense-chart.tsx:68-74 | one point per day label present, each the sum over the records carrying that label, in the order each label first occurs among the date-sorted records |
| ExpenseChart.TrendMergesYears | src/components/expense-chart.tsx:69-72 | the same month and day in different years give one point holding both amounts |
| ExpenseChart.CategoryData | src/components/expense-chart.tsx:83-94 | non-increasing, distinct names, names exactly the categories present |
| ExpenseChart.MethodData | src/components/expense-chart.tsx:97-109 | non-increasing, distinct names, names exactly the payment methods present |
| ExpenseChart.RankedBreakdown | src/components/expense-chart.tsx:88-93 | a ranked breakdown is sorted, has distinct names, lists exactly the keys present |
| ExpenseChart.ChartsIgnoreConversion | src/components/expense-chart.tsx:68-109 | records differing only in conversion fields and timestamps give the same three series |
| ExpenseTable.DisplayAmount | src/components/expense-table.tsx:215 | the converted amount when present (even 0), else `amount` |
| ExpenseTable.DisplayCurrency | src/components/expense-table.tsx:216 | the target currency when present, else the selected one |
| ExpenseTable.CellDiffersFromSums | src/components/expense-table.tsx:215 | a converted record's cell differs from what the sums count for it |
| ExpenseTable.Lower | src/components/expense-table.tsx:289 | same length, each character lower-cased (A to Z) |
| ExpenseTable.LowerIdempotent | src/components/expense-table.tsx:289-294 | lower-casing twice is lower-casing once |
| ExpenseTable.Includes | src/components/expense-table.tsx:291-293 | `String.prototype.includes`; IncludesIff states its meaning |
| ExpenseTable.Matches | src/components/expense-table.tsx:286-295 | the search callback: the lower-cased term is in the description, the category or the payment method; MatchesIgnoresCase relates it to the term's case |
| ExpenseTable.Passes | src/components/expense-table.tsx:281-296 | a record passes the category filter ("all" passes everything) and the search (empty passes everything); FilteredIsConjunction uses it |
| ExpenseTable.IncludesIff | src/components/expense-table.tsx:291-293 | `includes` holds iff the term occurs at some position |
| ExpenseTable.MatchesIgnoresCase | src/components/expense-table.tsx:288-295 | the search gives the same answer for a term and its lower-cased form |
| ExpenseTable.FilteredExpenses | src/components/expense-table.tsx:280-299 | the rows are never more than the records |
| ExpenseTable.FilteredIsConjunction | src/components/expense-table.tsx:280-299 | the rows are the records passing both the category filter ("all" passes everything) and the search (empty passes everything), in order |
| ExpenseTable.NoFilterShowsAll | src/components/expense-table.tsx:283-287 | "all" with an empty search shows every record |
| ExpenseTable.FilteredIdempotent | src/components/expense-table.tsx:280-299 | filtering the rows again changes nothing |
| ExpenseTable.DeleteTarget | src/components/expense-table.tsx:264-267 | an id is sent iff the record's id is truthy, and it is that id |
| ExpenseTable.DeletedRowDisappears | src/components/expense-table.tsx:264-267 | after the store carries out the delete, the row is gone |
| ExpenseForm.With | src/components/expense-form.tsx:86-89 | sets one field and leaves the others |
| ExpenseForm.Issues | src/components/expense-form.tsx:23-29 | at most four issues |
| ExpenseForm.IssuesReportFailures | src/components/expense-form.tsx:23-29 | an issue exists for a field iff it is a required field left empty, with that field's message |
| ExpenseForm.ValidIff | src/components/expense-form.tsx:23-29 | valid iff amount, category, date and payment method are non-empty; the description may be empty |
| ExpenseForm.ErrorMap | src/components/expense-form.tsx:103-108 | the map the `forEach` leaves: each issue's field set to its message, later issues overwriting earlier; ErrorMapKeys characterises it |
| ExpenseForm.CollectErrors | src/components/expense-form.tsx:103-108 | the `forEach` loop builds the issues' error map |
| ExpenseForm.ErrorMapKeys | src/components/expense-form.tsx:103-108 | the map has a key for exactly the named fields, each holding the message of the last issue for that field |
| ExpenseForm.ErrorsForFailingFields | src/components/expense-form.tsx:101-109 | after a failed check there are errors for exactly the failing fields, each with its message |
| ExpenseForm.DatePart | src/components/expense-form.tsx:71-73 | a prefix without "T", followed in the date by "T" when shorter |
| ExpenseForm.DatePartFixes | src/components/expense-form.tsx:71-73 | a date without "T" is unchanged, and truncating is idempotent |
| ExpenseForm.InitialValues | src/components/expense-form.tsx:55-61 | with no record the fields are empty and the date is today's |
| ExpenseForm.SyncedValues | src/components/expense-form.tsx:66-83 | the date has no "T"; with no record, as initially |
| ExpenseForm.BuildExpense | src/components/expense-form.tsx:112-119 | id only for a truthy edited id; the amount parsed; an empty description becomes null; the other fields copied |
| ExpenseForm.SubmitThenEditRoundTrip | src/components/expense-form.tsx:66-119 | reopening a submitted record shows the submitted values |
| ExpenseForm.FormState.constructor | src/components/expense-form.tsx:55-63 | initial values, no errors |
| ExpenseForm.FormState.OnExpenseChanged | src/components/expense-form.tsx:66-83 | the synced values and no errors |
| ExpenseForm.FormState.HandleChange | src/components/expense-form.tsx:85-96 | sets the field and drops that field's error only, the others stay |
| ExpenseForm.FormState.HandleSubmit | src/components/expense-form.tsx:98-123 | invalid: the failing fields' errors, nothing submitted; valid: the built record submitted and the drawer asked to close |
| CurrencySelector.Forwarded | src/components/currency-selector.tsx:199-200 | forwards only a non-empty converted list |
| CurrencySelector.Selector.constructor | src/components/currency-selector.tsx:189-190 | not loading |
| CurrencySelector.Selector.BeginChange | src/components/currency-selector.tsx:193-195 | reselecting the current currency does nothing; otherwise loading turns on |
| CurrencySelector.Selector.FinishChange | src/components/currency-selector.tsx:196-211 | on success the new currency is selected even for an empty list; on failure the selection stays; loading ends on every path |
| CurrencySelector.Selector.HandleCurrencyChange | src/components/currency-selector.tsx:192-211 | the endpoint is called iff the currency differs; then the effects of FinishChange |
| CurrencySelector.ChangeWithClient | src/services/api.ts:42-60 | with the real client the conversion never fails, and only a non-empty list is forwarded |
| NavContext.Name | src/context/nav-context.tsx:3 | each page's name is one of the three page strings |
| NavContext.NameInjective | src/context/nav-context.tsx:3 | distinct pages have distinct names |
| NavContext.Nav.constructor | src/context/nav-context.tsx:17-21 | dashboard, "INR", no conversion rates |
| NavContext.Nav.SetCurrentPage | src/context/nav-context.tsx:17-32 | replaces the page, keeps the other two cells |
| NavContext.Nav.SetSelectedCurrency | src/context/nav-context.tsx:17-32 | replaces the currency, keeps the other two cells |
| NavContext.Nav.SetConversionRates | src/context/nav-context.tsx:17-32 | replaces the rates, keeps the other two cells |
| NavContext.UseNav | src/context/nav-context.tsx:39-45 | raises "useNav must be used within NavProvider" iff there is no provider, else yields the provider's state |
| AppSidebar.PageForTitle | src/components/app-sidebar.tsx:63-68 | a title has a page iff it is one of the main items' titles |
| AppSidebar.PageForTitleInjective | src/components/app-sidebar.tsx:63-67 | distinct titles lead to distinct pages |
| AppSidebar.EveryPageReachable | src/components/app-sidebar.tsx:29-45 | every page is reached from some main item |
| AppSidebar.PageMapsAgree | src/components/app-sidebar.tsx:63-67 | the sidebar's map and the highlight map agree on every title |
| AppSidebar.HandleNavClick | src/components/app-sidebar.tsx:62-72 | a mapped title sets its page, an unmapped one changes nothing; the currency and rates stay |
| AppSidebar.ClickMainItem | src/components/app-sidebar.tsx:92-96 | clicking a main item changes the page, and that item becomes the highlighted one |
| NavMain.PageName | src/components/nav-main.tsx:28-32 | a title has a name iff it is one of the three mapped titles |
| NavMain.IsActive | src/components/nav-main.tsx:35-36 | `pageMap[itemTitle] === currentPage`; UnmappedNeverActive and ExactlyOneActive characterise it |
| NavMain.GetActiveClass | src/components/nav-main.tsx:34-40 | the highlight classes iff the title's mapped name is the current page |
| NavMain.UnmappedNeverActive | src/components/nav-main.tsx:35-36 | an unmapped title is never highlighted |
| NavMain.ExactlyOneActive | src/components/nav-main.tsx:28-37 | for every current page exactly one mapped title is highlighted |
| NavMain.ClickedTitle | src/components/nav-main.tsx:61 | the handler, when present, receives the item's own title |

## Left out

- Rendering is left out because it is presentation only. That covers JSX, CSS classes, icons, drawers, toasts, `console` logging, and the tooltip and select widgets.
- The table's sorting, pagination, column visibility and row selection are left out. They are the table library's behaviour and are not visible here.
- Chart drawing is left out because it belongs to the charting library.
- `fetch`, HTTP and JSON parsing are I/O. They appear only as an input variant: an `ok` response with its body, a non-`ok` status, or a thrown error.
- Api.CreateExpense: the two `new Date().toISOString()` calls for `created_at` and `updated_at` are taken as one instant `nowIso`, so a local record always has equal timestamps; the source has that only when both calls fall in the same millisecond.
- Api.FetchExpenses: a truthy `data` field that is not an array is not modelled, because the body's `data` field is typed as an optional list.
- Api.CreateExpense and Api.UpdateExpense: an `ok` body that is neither a record nor a wrapper holding one is returned as is by `data.data || data` and then appended to the list. The model has no value for such a body, so it is not modelled.
- Host date handling is left out: date parsing, `toLocaleString` / `toLocaleDateString` labels, `Date.now()` and `toISOString()`. They are parameters (`dateOf`, `nowMillis`, `nowIso`), and labels are the pairs they are one-to-one with.
- Invalid dates (a parse giving NaN) are not modelled, because `dateOf` is total.
- ExpenseChart.SortByDate: the sort compares parsed calendar dates, not millisecond timestamps, so records on the same calendar day keep their input order where the source orders them by time of day. This cannot change the trend: such records share one day label, and the position where each label first occurs is the same in both orders.
- `toFixed` / `parseFloat` rounding of displayed figures and chart values is not modelled. Amounts are exact reals.
- Number-to-text and `parseFloat` on the form's amount are parameters (`showAmount`, `parseAmount`).
- `getCurrencySymbol` and `SUPPORTED_CURRENCIES` are not part of this model. They come from a utility module and a constant table that only feed the display.
- Overlapping requests and handlers closing over a stale `expenses` value are concurrency concerns. Each handler is modelled as one atomic step.
- Grouping.GroupSum: JavaScript lists integer-like keys (such as a category named "2024") before all others, in ascending order. The model keeps every key in insertion order.
- Grouping.GroupSum: the reducers' plain-object accumulators misbehave on keys naming inherited properties: `acc["constructor"]` starts from `Object` rather than 0, and assigning `acc["__proto__"]` creates no entry. The model treats every label as an ordinary key.
- ExpenseTable.Lower: only the letters A to Z are lower-cased. Unicode case mapping is not modelled.
- A page-map lookup of an inherited property name (such as `"constructor"`) is not modelled, because the maps are total functions on titles.
- `src/pages/expenses-page.tsx` and `src/pages/dashboard-page.tsx` are not part of this model. They only pass props through.
- No member states that the form's drawer closes, because the actual close happens in the drawer component. `HandleSubmit` only reports that it asked.
