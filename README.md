# E-Accounting client logic in Dafny

This project models the logic that the E-Accounting React client computes on its own. The arithmetic on investments (interest, returns, performance) runs on the server and is not part of this model. What is modelled:

- **Breadcrumb** (`breadcrumb.dfy`): the URL path is split on `/`, and empty and `dashboard` segments are dropped. The trail is the fixed "Dashboard" item followed by one item per remaining segment, built by a loop. Every item but the last links to the prefix of segments that ends at it. Nothing is rendered when no segment remains.
- **Investment list page** (`investments_page.dfy`): the `filters` query record and its two transitions (a filter change, a sort change). Also the pagination buttons, the "Showing X to Y of Z" range, and the choice of content view. The record lives in a small class whose handlers replace it.
- **Dashboard overview** (`dashboard_overview.dfy`): `mapApiToDashboardData` and the display currency. This covers totals with defaults, the per-currency rows, the sum of counts, fixed zero changes, and the best performer found by a strict-maximum fold.
- **Investment form** and **transaction form** (`investment_form.dfy`, `transaction_form.dfy`): the initial field texts and `validateForm`. Validation fills an error dictionary field by field and reports whether it stayed empty. Also the submitted payload, `handleInputChange`, and, for transactions, the rule against future dates and the currency of the selected investment. Each form is a class with `formData` and `errors` fields.
- **Asset allocation chart** (`asset_allocation.dfy`): key-to-label formatting (`REAL_ESTATE` becomes `Real Estate`), the labels, data and colour arrays, and the centre total.
- **Transaction card** and **recent transactions** (`transaction_card.dfy`, `recent_transactions.dfy`): label, sign and colour of a transaction type, the normalisation of the recent-transactions payload, and the fallbacks for description and currency.
- `common.dfy` and `text.dfy` hold the JavaScript idioms these rely on. These are `||` and `??` defaults, the left-fold sum, `String.prototype.trim` with its exact white-space set, ASCII case mapping, and `split('T')[0]`.

Modelling conventions:

- Numbers are `real`.
- `parseFloat` is a parameter `parse: string -> Option<real>`, where `None` is NaN. Every comparison with NaN is false, so a non-empty text that does not parse passes the `<= 0` and `< 0` comparisons.
- A date string is given as a day number by a parameter `parseDay`, where `None` is an Invalid Date. `new Date("YYYY-MM-DD")` is midnight UTC of that day.
- The clock (`nowMs`, `nowIso`) and the browser's time zone (`offsetMs`, local time minus UTC) are parameters.
- `Number.prototype.toString` is a parameter `show`.

## Model

| member | source | states |
|---|---|---|
| Common.OrElse | src/components/transactions/TransactionCard.tsx:14 | `s \|\| fallback`: a non-empty string is kept; the result differs from the fallback only when it is that non-empty string |
| Common.Default | src/pages/dashboard/DashboardOverview.tsx:87-88 | `x ?? fallback`: a present value is kept, only a missing one is replaced |
| Common.NumberText | src/components/investments/InvestmentForm.tsx:26 | `n?.toString() \|\| ''`: a missing number gives the empty text; a present number gives exactly its `toString` text, so `\|\| ''` never changes it |
| Common.ClearError | src/components/investments/InvestmentForm.tsx:109-111 | clearing a field's error keeps the same keys, empties that key's entry, and leaves every other entry unchanged |
| Common.SumFromIsSum | src/components/dashboard/AssetAllocationChart.tsx:68 | the `reduce` left fold from `acc` equals `acc` plus the reference sum |
| Common.SumAppend | src/pages/dashboard/DashboardOverview.tsx:112 | the sum of a concatenation is the sum of the parts |
| Text.LeadEnd | src/components/investments/InvestmentForm.tsx:40 | the scan stops at the first non-white character from `i`, or at the end; everything skipped is white space |
| Text.TrailStart | src/components/investments/InvestmentForm.tsx:79 | the scan down from `k` stops just after the last non-white character; everything skipped is white space |
| Text.BlankIffTrimEmpty | src/components/investments/InvestmentForm.tsx:40 | `!s.trim()` holds exactly when every character of `s` is white space |
| Text.TrimEnds | src/components/investments/InvestmentForm.tsx:79 | a non-empty trimmed string neither starts nor ends with white space |
| Text.TrimInside | src/components/transactions/TransactionForm.tsx:83 | a trimmed string is a contiguous piece of the original, and everything cut off before and after it is white space; with `TrimEnds` this fixes the result of `trim` |
| Text.ToUpper | src/components/layout/Breadcrumb.tsx:32 | a lower-case ASCII letter becomes its upper-case letter; every other character is unchanged |
| Text.ToLower | src/components/dashboard/AssetAllocationChart.tsx:32 | an upper-case ASCII letter becomes its lower-case letter; every other character is unchanged |
| Text.Lower | src/components/dashboard/RecentTransactions.tsx:166 | `toLowerCase` keeps the length and maps each character on its own |
| Text.BeforeT | src/components/investments/InvestmentForm.tsx:28 | `split('T')[0]` is a prefix without `T`, followed in the input by a `T` or by the end |
| Breadcrumb.Split | src/components/layout/Breadcrumb.tsx:21 | `split('/')` gives at least one piece, and no piece holds a separator |
| Breadcrumb.Filter | src/components/layout/Breadcrumb.tsx:21-24 | `filter` keeps exactly the elements that satisfy the predicate |
| Breadcrumb.CleanSegments | src/components/layout/Breadcrumb.tsx:21-24 | every clean segment is non-empty, is not `dashboard` and holds no `/`; every such piece of the path is kept |
| Breadcrumb.SegmentName | src/components/layout/Breadcrumb.tsx:32 | a segment in the route table gets its table name; any other segment is capitalised in its first character and otherwise unchanged (inherited object names are not looked up, see "## Left out") |
| Breadcrumb.BuildItems | src/components/layout/Breadcrumb.tsx:26-38 | the `forEach` loop builds exactly the trail `ItemsFor(clean)` |
| Breadcrumb.Render | src/components/layout/Breadcrumb.tsx:19-43 | nothing is rendered exactly when no clean segment remains; otherwise the trail of the clean segments is rendered |
| Breadcrumb.ItemsShape | src/components/layout/Breadcrumb.tsx:26-38 | the trail is the Dashboard item followed by one item per clean segment, in path order, with that segment's name |
| Breadcrumb.OnlyLastUnlinked | src/components/layout/Breadcrumb.tsx:33-35 | the last item has no link and every earlier item has one |
| Breadcrumb.HrefExtends | src/components/layout/Breadcrumb.tsx:35 | each link is the previous link plus `/` and one segment, so it extends it |
| Breadcrumb.SplitAround | src/components/layout/Breadcrumb.tsx:21 | splitting around one separator splits the two sides independently |
| Breadcrumb.SplitNoSeparator | src/components/layout/Breadcrumb.tsx:21 | a string without the separator splits into itself |
| Breadcrumb.FilterAppend | src/components/layout/Breadcrumb.tsx:24 | filtering a concatenation filters each part |
| Breadcrumb.SegmentsAround | src/components/layout/Breadcrumb.tsx:21 | the segments on either side of a `/` are found independently |
| Breadcrumb.DoubledSlash | src/components/layout/Breadcrumb.tsx:21 | a doubled `/` gives the same segments as a single one |
| Breadcrumb.TrailingSlash | src/components/layout/Breadcrumb.tsx:21 | a trailing `/` adds no segment |
| Breadcrumb.LeadingSlash | src/components/layout/Breadcrumb.tsx:21 | a leading `/` adds no segment |
| Breadcrumb.SameTrailForSlashVariants | src/components/layout/Breadcrumb.tsx:21-24 | `/dashboard/investments/` and `/dashboard//investments` give the same clean segments |
| Breadcrumb.SegmentsOfJoin | src/components/layout/Breadcrumb.tsx:35 | joining non-empty segments without `/` and splitting again gives them back |
| Breadcrumb.NoDashboardKept | src/components/layout/Breadcrumb.tsx:24 | removing `dashboard` from a list that holds none leaves it unchanged |
| Breadcrumb.SegmentsOfHref | src/components/layout/Breadcrumb.tsx:35 | the link of item `k` splits into `dashboard` followed by the first `k + 1` clean segments |
| Breadcrumb.HrefRoundTrip | src/components/layout/Breadcrumb.tsx:21-35 | following the link of item `k` leads to a page whose clean segments are the first `k + 1` of the current ones |
| InvestmentsPage.FilterChange | src/pages/dashboard/Investments.tsx:120-126 | the changed key takes its value; the page becomes 1 unless the page itself was set; every other field is unchanged |
| InvestmentsPage.NextSortOrder | src/pages/dashboard/Investments.tsx:130 | the new order is descending exactly when the same column is re-clicked while ascending |
| InvestmentsPage.SortChange | src/pages/dashboard/Investments.tsx:129-136 | the sort column is set and the order chosen as above; search, category, status, page and limit are unchanged |
| InvestmentsPage.SortChangeFlips | src/pages/dashboard/Investments.tsx:130 | re-sorting by the current column changes the order |
| InvestmentsPage.SortButtonTwiceRestores | src/pages/dashboard/Investments.tsx:245 | two clicks on the sort-order button give back the original query |
| InvestmentsPage.InitialSortToggle | src/pages/dashboard/Investments.tsx:30-35 | from the initial query (page 1, limit 10, newest first), one click sorts ascending and a second restores it |
| InvestmentsPage.FilterChangeResetsPage | src/pages/dashboard/Investments.tsx:124 | changing any key but the page sends the query to page 1 |
| InvestmentsPage.EnabledButtonsStayInRange | src/pages/dashboard/Investments.tsx:316-324 | Previous is disabled exactly on the first page and Next exactly on the last; an enabled button asks for a page in range |
| InvestmentsPage.RangeStart | src/pages/dashboard/Investments.tsx:334 | the first page starts at row 1, and each later page that the total reaches starts right after the last row of the previous page |
| InvestmentsPage.RangeEnd | src/pages/dashboard/Investments.tsx:338 | the last row shown is the smaller of the page's end and the total |
| InvestmentsPage.RangeBounds | src/pages/dashboard/Investments.tsx:332-340 | the range never passes the total and never holds more than one page of rows |
| InvestmentsPage.RangeNotEmpty | src/pages/dashboard/Investments.tsx:332-340 | on a page that is not past the end, the range is not empty |
| InvestmentsPage.ContentView | src/pages/dashboard/Investments.tsx:260-311 | spinner while loading; error view only with an error and an empty list; the create button only when no filter is set; pagination only with more than one page |
| InvestmentsPage.ListQuery.constructor | src/pages/dashboard/Investments.tsx:30-35 | the query starts as page 1, limit 10, `createdAt`, descending |
| InvestmentsPage.ListQuery.HandleFilterChange | src/pages/dashboard/Investments.tsx:120-126 | the new query is the filter-change transition of the old one |
| InvestmentsPage.ListQuery.HandleSortChange | src/pages/dashboard/Investments.tsx:129-136 | the new query is the sort-change transition of the old one, on the same page |
| DashboardOverview.ReduceBest | src/pages/dashboard/DashboardOverview.tsx:91-94 | the fold ends on a performer whose rate bounds every rate and is strictly above every earlier one |
| DashboardOverview.BestIndex | src/pages/dashboard/DashboardOverview.tsx:91-95 | the best index holds the largest rate, and it is the earliest index that does |
| DashboardOverview.Best | src/pages/dashboard/DashboardOverview.tsx:117-121 | no performer gives `''`, `'-'`, 0; otherwise a performer's id, name and rate, with a rate that bounds every other rate |
| DashboardOverview.BestIsEarliestMaximum | src/pages/dashboard/DashboardOverview.tsx:93 | on a tie the earliest performer with the top rate is kept |
| DashboardOverview.MapCurrencyTotal | src/pages/dashboard/DashboardOverview.tsx:98-104 | a row copies the currency and takes each of principal, current value, returns and count from the payload, reading a missing one as 0 |
| DashboardOverview.CurrencyTotals | src/pages/dashboard/DashboardOverview.tsx:97-105 | the rows follow the input in length and order; a non-array gives `[]` |
| DashboardOverview.Counts | src/pages/dashboard/DashboardOverview.tsx:112 | one count per row, a missing count read as 0 |
| DashboardOverview.ActiveInvestments | src/pages/dashboard/DashboardOverview.tsx:112 | a missing list counts 0, a list counts the sum of its counts, and a non-array value makes the `reduce` throw |
| DashboardOverview.ActiveInvestmentsAppend | src/pages/dashboard/DashboardOverview.tsx:112 | the active count adds up over concatenated lists |
| DashboardOverview.MapApiToDashboardData | src/pages/dashboard/DashboardOverview.tsx:86-126 | missing totals default to 0, allocation to `{}`; monthly and yearly changes are 0; it throws exactly when the totals are not an array |
| DashboardOverview.BestBoundsEveryPerformer | src/pages/dashboard/DashboardOverview.tsx:90-120 | the best performer's rate is at least every top performer's rate, missing rates read as 0 |
| DashboardOverview.DisplayCurrency | src/pages/dashboard/DashboardOverview.tsx:142 | the first row's currency when it is set and non-empty; `USD` when there is no first row or its currency is missing or empty |
| InvestmentForm.WithField | src/components/investments/InvestmentForm.tsx:108 | the edited field takes the value and every other field is unchanged |
| InvestmentForm.InitialFormData | src/components/investments/InvestmentForm.tsx:23-32 | empty fields with status `ACTIVE` when creating; when editing, the stored name, category and description, the text of each stored amount (empty when missing), the start date cut before `T`, and the stored status or `ACTIVE` |
| InvestmentForm.Shown | src/components/investments/InvestmentForm.tsx:41-61 | only a cleared entry shows as the empty text |
| InvestmentForm.Validate | src/components/investments/InvestmentForm.tsx:37-66 | each rule sets its own key exactly when it fails, with its message; the current balance is checked only when editing; the result is true exactly when no key is set |
| InvestmentForm.ErrorsForUnique | src/components/investments/InvestmentForm.tsx:37-63 | the error dictionary is determined by the form |
| InvestmentForm.NoErrorsIffAcceptable | src/components/investments/InvestmentForm.tsx:64-65 | the dictionary is empty exactly when every rule passes |
| InvestmentForm.ZeroAndUnparsable | src/components/investments/InvestmentForm.tsx:48-62 | an amount of 0 is refused but a return rate of 0 is accepted; a text that does not parse passes both rules |
| InvestmentForm.TrimmedOrAbsent | src/components/investments/InvestmentForm.tsx:85 | the description is left out exactly when it is blank, and sent trimmed otherwise |
| InvestmentForm.SubmitData | src/components/investments/InvestmentForm.tsx:78-93 | the name is the trimmed name and the description the trimmed description, left out when blank; the return type is always `FIXED`; the amounts are parsed; the balance and status are added exactly when editing |
| InvestmentForm.PayloadTrimmed | src/components/investments/InvestmentForm.tsx:79-85 | name and description carry no surrounding white space; the name is empty and the description absent exactly when blank |
| InvestmentForm.AcceptedPayload | src/components/investments/InvestmentForm.tsx:71-86 | an accepted form sends a non-empty name, an amount above 0 and a rate of 0 or more (or NaN) |
| InvestmentForm.Form.constructor | src/components/investments/InvestmentForm.tsx:21-34 | edit mode exactly with a stored investment; initial fields; no errors |
| InvestmentForm.Form.ValidateForm | src/components/investments/InvestmentForm.tsx:37-66 | stores the dictionary of the current fields and reports whether it is empty |
| InvestmentForm.Form.Submit | src/components/investments/InvestmentForm.tsx:68-86 | a payload is built exactly when validation leaves no error |
| InvestmentForm.Form.HandleInputChange | src/components/investments/InvestmentForm.tsx:107-111 | the field takes the value; only that field's error is emptied |
| TransactionForm.WithField | src/components/transactions/TransactionForm.tsx:103 | the edited field takes the value and every other field is unchanged |
| TransactionForm.InitialFormData | src/components/transactions/TransactionForm.tsx:24-30 | type `DEPOSIT` and today's UTC date when creating; the stored values when editing, with the date cut before `T` |
| TransactionForm.Shown | src/components/transactions/TransactionForm.tsx:39-62 | only a cleared entry shows as the empty text |
| TransactionForm.LocalDay | src/components/transactions/TransactionForm.tsx:54 | the local day is the day whose span holds the local time |
| TransactionForm.Validate | src/components/transactions/TransactionForm.tsx:35-67 | each rule sets its own key exactly when it fails; an empty date is required and any other date after the local today is in the future, never both; true exactly when no key is set |
| TransactionForm.ErrorsForUnique | src/components/transactions/TransactionForm.tsx:35-63 | the error dictionary is determined by the form and the day |
| TransactionForm.NoErrorsIffAcceptable | src/components/transactions/TransactionForm.tsx:65-66 | the dictionary is empty exactly when every rule passes |
| TransactionForm.DateRuleAroundToday | src/components/transactions/TransactionForm.tsx:50-59 | today and earlier dates are accepted; a later date gets the future-date message |
| TransactionForm.AsWrittenAgreesEastOfUtc | src/components/transactions/TransactionForm.tsx:53-56 | at UTC or east of it, the comparison as written refuses exactly the dates after the local today |
| TransactionForm.AsWrittenAcceptsTomorrowWestOfUtc | src/components/transactions/TransactionForm.tsx:53-56 | west of UTC, the comparison as written refuses only dates after tomorrow, so tomorrow is accepted |
| TransactionForm.NewYorkMorning | src/components/transactions/TransactionForm.tsx:53-56 | at 08:00 on 2025-10-15 in UTC−5, the date 2025-10-16 is accepted as written |
| TransactionForm.DefaultDate | src/components/transactions/TransactionForm.tsx:29 | the default (UTC) date always passes the rule as written; under the local-day rule it fails only when the UTC date is already the next local day |
| TransactionForm.SubmitData | src/components/transactions/TransactionForm.tsx:79-85 | the description is the trimmed description (empty exactly when blank); the amount is parsed; the investment, type and date are copied |
| TransactionForm.AcceptedPayload | src/components/transactions/TransactionForm.tsx:72-85 | an accepted form sends an investment, a description, an amount above 0 (or NaN) and a date not after today |
| TransactionForm.FindFrom | src/components/transactions/TransactionForm.tsx:109 | `find` returns the first investment with the id, or none when no investment has it |
| TransactionForm.CurrencyCode | src/components/transactions/TransactionForm.tsx:109-110 | the currency of the first investment with the selected id when it is set and non-empty; `NGN` when no investment matches or the first match has no currency |
| TransactionForm.Form.constructor | src/components/transactions/TransactionForm.tsx:22-32 | edit mode exactly with a stored transaction; initial fields; no errors |
| TransactionForm.Form.ValidateForm | src/components/transactions/TransactionForm.tsx:35-67 | stores the dictionary of the current fields and reports whether it is empty |
| TransactionForm.Form.Submit | src/components/transactions/TransactionForm.tsx:69-85 | a payload is built exactly when validation leaves no error |
| TransactionForm.Form.HandleInputChange | src/components/transactions/TransactionForm.tsx:102-107 | the field takes the value; only that field's error is emptied |
| AssetAllocation.ReplaceUnderscores | src/components/dashboard/AssetAllocationChart.tsx:32 | every `_` becomes a space, every other character stays, and the length is kept |
| AssetAllocation.CapitalizeWords | src/components/dashboard/AssetAllocationChart.tsx:32 | the word-initial upper-casing keeps the length |
| AssetAllocation.CapitalizeWordsAt | src/components/dashboard/AssetAllocationChart.tsx:32 | a character is upper-cased exactly when it is a word character after a non-word character or at the start |
| AssetAllocation.FormatLabelAt | src/components/dashboard/AssetAllocationChart.tsx:32 | the three passes agree with a character-by-character rule |
| AssetAllocation.LabelShape | src/components/dashboard/AssetAllocationChart.tsx:32 | a label has the key's length and no `_`; each word starts upper case and the rest of it is lower case |
| AssetAllocation.RealEstateLabel | src/components/dashboard/AssetAllocationChart.tsx:32 | `REAL_ESTATE` is shown as `Real Estate` |
| AssetAllocation.Keys | src/components/dashboard/AssetAllocationChart.tsx:30 | `Object.keys` follows the entries in order |
| AssetAllocation.Values | src/components/dashboard/AssetAllocationChart.tsx:36 | `Object.values` follows the entries in order |
| AssetAllocation.SliceColors | src/components/dashboard/AssetAllocationChart.tsx:37 | `colors.slice(0, n)` is a prefix of the palette with at most six colours |
| AssetAllocation.BuildChartData | src/components/dashboard/AssetAllocationChart.tsx:29-42 | labels and data follow the entries in length and order; both colour lists are the first min(6, n) colours of the palette |
| AssetAllocation.Swatch | src/components/dashboard/AssetAllocationChart.tsx:91 | a row has a palette colour exactly when its index is within the palette |
| AssetAllocation.TotalValue | src/components/dashboard/AssetAllocationChart.tsx:68 | the centre figure is the sum of the values |
| AssetAllocation.TotalValueAppend | src/components/dashboard/AssetAllocationChart.tsx:68 | adding an entry adds its value to the centre figure |
| TransactionCard.TypeLabel | src/components/transactions/TransactionCard.tsx:73-87 | a known type keeps its first letter and lower-cases the rest; any other type is shown as it is |
| TransactionCard.AmountSign | src/components/transactions/TransactionCard.tsx:90-105 | `+` exactly for deposits, returns and dividends; `-` exactly for withdrawals; no sign otherwise |
| TransactionCard.AmountDisplay | src/components/transactions/TransactionCard.tsx:90-105 | the formatted amount carries the sign of its type |
| TransactionCard.TransactionColor | src/components/transactions/TransactionCard.tsx:56-70 | green exactly for deposits, returns and dividends; red exactly for withdrawals; blue exactly for transfers; gray exactly for unknown types |
| TransactionCard.ColorMatchesSign | src/components/transactions/TransactionCard.tsx:56-70 | green exactly for `+`, red exactly for `-`, blue exactly for transfers, and the unsigned types blue or gray |
| TransactionCard.CurrencyCode | src/components/transactions/TransactionCard.tsx:14 | the investment's currency when it is set and non-empty, otherwise `NGN` |
| RecentTransactions.NormalizePayload | src/components/dashboard/RecentTransactions.tsx:36-40 | an array is used as it is; an object's `transactions` array is used; anything else gives `[]` |
| RecentTransactions.Sign | src/components/dashboard/RecentTransactions.tsx:177 | `-` exactly for withdrawals, `+` for every other type |
| RecentTransactions.Color | src/components/dashboard/RecentTransactions.tsx:118-129 | green exactly for deposits, red exactly for withdrawals, blue exactly for transfers, gray for every other type |
| RecentTransactions.DescriptionText | src/components/dashboard/RecentTransactions.tsx:166 | a non-empty description is shown; otherwise the lower-cased type followed by ` transaction` |
| RecentTransactions.CurrencyOf | src/components/dashboard/RecentTransactions.tsx:89-93 | the investment's currency when it is set and non-empty, otherwise `NGN` |
| RecentTransactions.SignAgainstCard | src/components/dashboard/RecentTransactions.tsx:177 | the list and the card agree on signed types; a transfer or an unknown type is `+` here but unsigned on the card |
| RecentTransactions.ColorAgainstCard | src/components/dashboard/RecentTransactions.tsx:118-129 | returns and dividends are gray here but green on the card; deposits, withdrawals and transfers agree |

## Left out

- The interest, returns and reports engines run on the server. The service modules (`src/services/*.ts`) only forward HTTP calls, and `InterestActions.tsx` only awaits them. They are not part of this model.
- Fetching, `setIsLoading`, `isSubmitting`, the `submit` error entry set when a service call fails, and the `onSuccess` and `onCancel` callbacks are not modelled: they are I/O and React state plumbing.
- The mock data that the `catch` blocks of the list page, the dashboard and the recent transactions install for development is not modelled.
- Rendering, icons and class names are not modelled, beyond the colour names the card and the list pick.
- `Intl.NumberFormat`, `toLocaleDateString` and `toFixed` are not modelled. The formatted amount is a parameter.
- `parseFloat`, `Number` and `toString` are parameters. Their text formats and floating-point rounding are not modelled, and numbers are exact `real`s.
- Case mapping covers ASCII letters only. `toUpperCase` and `toLowerCase` on other letters are not modelled.
- The dashboard payload is taken as typed: a string in a numeric field is not converted by `Number`, and `c.count || 0` and `c.count ?? 0` are the same when the count is a number.
- The allocation entries are given in `Object.keys` order. The ordering rules of JavaScript objects (integer-like keys first) are not modelled.
- `handleInputChange` takes a field of the form, not an arbitrary key. Setting an unknown key on `formData` is not modelled.
- InvestmentForm.Shown: the category select shows `errors.type` (`InvestmentForm.tsx:147-150`), a key that validation never sets, so the category message stored under `category` is never displayed. The model keeps the dictionary as validation fills it. The select is `required` with an empty placeholder, so the browser stops an empty category before validation runs.
- TransactionForm.Validate: models the corrected future-date rule (see Findings). The comparison as written is `FutureAsWritten`. The time-zone offset is taken as fixed across the day, so a daylight-saving change within the day is not modelled.
- Breadcrumb.SegmentName: `routeNames[segment]` is a lookup on an object literal, so it also finds names inherited from `Object.prototype` (`constructor`, `toString`, `__proto__`, ...): the fallback then does not run, and `__proto__` renders an object and throws. The model looks up only the route table and capitalises such segments. The routes in `App.tsx:25-41` only send the known child pages to the dashboard layout, so the app never produces these paths.
- The sign mappings repeated in `TransactionDetail.tsx` and the transaction delete dialog are not modelled.

## Findings

| source | as written | input that shows it | evidently intended | confidence | as-written member | corrected member |
|---|---|---|---|---|---|---|
| src/components/transactions/TransactionForm.tsx:53-56 | `new Date(formData.date)` is midnight UTC of the entered day, but `today.setHours(23, 59, 59, 999)` is the end of the local day. West of UTC the comparison therefore lets the next local day through. | Browser in UTC−5 at 08:00 local on 2025-10-15: the date `2025-10-16` raises no error. | A date after the local today is refused. The model's `Validate` compares day numbers with the local day. Because the default date of a new form is the UTC date, the default itself would be refused in the evening west of UTC (`DefaultDate`), so the default should become the local date. | not executed | TransactionForm.AsWrittenAcceptsTomorrowWestOfUtc | TransactionForm.DateRuleAroundToday |
