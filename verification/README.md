# FinanceFlow core, modelled in Dafny

FinanceFlow is a personal finance tracker. A thin HTTP gateway
(`api/index.js`) authenticates each request with the identity provider and
forwards it to webhooks of an automation engine. Three browser pages work
on what comes back:

- the dashboard (`assets/js/app.js`);
- the statistics page (`assets/js/stats.js`);
- the profile page (`assets/js/profile.js`).

This project models the decision and aggregation logic of these four files
and proves properties of it.

| module | file | models |
|---|---|---|
| `Gateway` | gateway.dfy | `authenticateUser`, `forwardToN8N` and the route handlers: status ladders, payloads, validation, a trace of outbound calls |
| `Session` | session.dfy | `authFetch` and its `isRedirectingToLogin` latch, as a class (the same code appears on every page) |
| `Ledger` | ledger.dfy | transaction and category records, type inference from the sign, the date sort |
| `Calendar` | calendar.dfy | Gregorian months and leap years, day stepping, ISO date strings, the month-picker value |
| `MonthWindow` | month_window.dfy | `getFilterDates`, both as written and corrected, with the time-zone offset as a parameter |
| `Dashboard` | dashboard.dfy | `updateChartFromData` (a method with a loop over a map), the recent list rows, category options, the add/edit form class, the headline figures, the sidebar name |
| `ExpenseStats` | expense_table.dfy | the expense table class (load, search, prev/next, page slice, page info), the category breakdown, the PDF export's rows and total |
| `Profile` | profile.dfy | display name, avatar initials, the profile figures with their `??` and `||` fallbacks |
| `Js`, `Text`, `Seqs`, `Wrappers` | js.dfy, text.dfy, seqs.dfy, wrappers.dfy | JavaScript values and truthiness; `trim`, `split`, `join`, `includes` and ASCII case; `filter` and `reduce`; Option and Result |

Modelling choices:

- Amounts are integers, because rupiah are shown without fraction digits.
- Percentages are integers counting tenths of a percent.
- Text fields hold "" where a record has no value. The pages only test these fields with `||` and `&&`, which treat `undefined`, `null` and `""` alike.
- Months are numbered 1 to 12.
- The host's time zone is a fixed offset in minutes. It has the sign of `getTimezoneOffset()` and is smaller than a day.
- The identity provider's answer, the upstream's answer, the browser's fetch outcome and the records a response lists are all parameters.

Two points where the code's behaviour is worth stating outright:

- **Month window.** The comment at `assets/js/app.js:82` says the offset is subtracted to get a local ISO date, which makes the window the selected month wherever the host is. West of UTC it is the previous month instead: see Findings.
- **Category breakdown.** `assets/js/stats.js:195-213` renders the gateway's list as it is, without grouping, so `ExpenseStats.Breakdown` takes that list.

`Session.RedirectsOnce` and `ExpenseStats.Browse` are example clients. They have no ensures and no row below: their asserts only exercise the contracts of the members they call.

## Model

| member | source | states |
|---|---|---|
| `Gateway.BearerTokenOfHeader` | api/index.js:23 | the token taken from "Bearer t" is t, for any t without spaces |
| `Gateway.BearerToken` | api/index.js:23 | `split(' ')[1]` is undefined exactly when the header holds no space; otherwise it is a piece without spaces |
| `Text.SplitIntoOne` | api/index.js:23 | `split(sep)` gives more than one piece exactly when the separator occurs |
| `Gateway.ProviderErrorResponse` | api/index.js:29-37 | a provider error is 401 exactly when its status is 401 or 403, or its message includes "Invalid" or "expired"; any other error is 500 |
| `Gateway.Authenticate` | api/index.js:16-50 | no header: 401 and no provider call; otherwise exactly one provider call. Only a reply with no error and a user proceeds, with that user. No user: 401. An exception: 500. Every halt is 401 or 500 |
| `Gateway.Forward` | api/index.js:53-74 | unconfigured URL: 500 and no call; otherwise exactly one call with the payload. Success relays the data with 200. An upstream error response relays its own status and body. No response: 502 |
| `Gateway.StatsAction` | api/index.js:160-166 | the action is `get_profile_stats` exactly when mode is "profile", otherwise `get_dashboard_stats` |
| `Gateway.ActionOf` | api/index.js:97-194 | the stats route sends the profile or the dashboard stats action, chosen by `mode`; no other route sends either |
| `Gateway.ActionNamesTheOperation` | api/index.js:97-194 | equal action tags mean the same operation, and every operation other than stats always sends the same tag |
| `Gateway.WebhookVariable` | api/index.js:91-189 | each route's webhook URL is read from an `N8N_WEBHOOK_` environment variable |
| `Gateway.EachOperationItsWebhook` | api/index.js:91-189 | two routes read the same variable if and only if they are the same operation |
| `Gateway.BuildPayload` | api/index.js:88-198 | 400 exactly for a POST with a falsy amount, date or type. Every payload carries the route's action and the user id. DELETE and PUT carry the path id. POST and PUT carry the body fields. The list and stats routes pass on their date query parameters |
| `Gateway.Handle` | api/index.js:89-198 | at most one provider call then at most one upstream call. A halted authentication is answered as the middleware answered it, with no upstream call. A refused POST gets 400 with no upstream call. The upstream call goes to the route's configured URL with the authenticated user's id and the route's action. Once authenticated with a payload built, the answer is the relay's answer for the route's webhook |
| `Gateway.UpstreamAnswerRelayed` | api/index.js:53-74 | for an authenticated request whose payload builds: an unconfigured webhook gives 500 after the provider call alone; otherwise the upstream's body with 200, its own status and body (a DELETE answered 404 is answered 404), or 502 when it does not answer |
| `Gateway.Delivers` | api/index.js:53-64 | an authenticated request whose payload builds, sent to a configured webhook, makes exactly two calls: the provider's with the bearer token, then the webhook's with that payload |
| `Gateway.StatsModeSelectsAction` | api/index.js:157-173 | the forwarded stats action is the profile one if and only if `mode === 'profile'`, the dashboard one otherwise |
| `Gateway.TransactionIdForwarded` | api/index.js:126-154 | DELETE and PUT forward the path's id as `transactionId` |
| `Gateway.UpdateIsNotValidated` | api/index.js:139-154 | once authenticated and configured, PUT always reaches the upstream whatever its body holds, and relays the upstream's answer |
| `Gateway.ZeroAmountIsRefused` | api/index.js:106-114 | a POST with amount 0 gets 400 and makes no upstream call |
| `Session.AuthSession.constructor` | assets/js/profile.js:6-11 | the latch starts unset, with no redirect and no request sent |
| `Session.AuthSession.Send` | assets/js/profile.js:15-22 | with the latch set nothing is sent and nothing changes; otherwise exactly one request goes out and the latch is untouched |
| `Session.AuthSession.Receive` | assets/js/profile.js:22-34 | a 401 leaves the latch set, the token cleared and exactly one redirect, even when the latch was already set by another answer; any other answer is returned unchanged or rethrown, and nothing changes |
| `Session.AuthSession.AuthFetch` | assets/js/profile.js:14-35 | once the latch is set: null, no request, nothing changes. Otherwise one request. The first 401 sets the latch, clears the token, redirects once and gives null. Any other answer is returned unchanged. A network error is rethrown. At most one redirect ever happens |
| `Ledger.InferType` | assets/js/app.js:156 | an explicit type wins; without one the type is "expense" if and only if the amount is negative, else "income"; never empty |
| `Ledger.SortBy` | assets/js/app.js:250 | the result is ordered by the key and is a permutation of the input |
| `Calendar.EndOfMonth` | assets/js/stats.js:62 | day 0 of the next month is the month's last day (leap years included): the day after it is the 1st of the next month |
| `Calendar.IsoDate` | assets/js/app.js:84-85 | `toISOString().slice(0, 10)`: ten characters, digits with '-' at positions 4 and 7 |
| `Calendar.ParseIsoDate` | assets/js/app.js:74 | a date-only string that parses has that shape and gives a valid date with a four-digit year |
| `Calendar.ParseIsoDateOfIsoDate` | assets/js/app.js:74-85 | a date printed as "YYYY-MM-DD" parses back to the same date |
| `Calendar.ParseMonthInput` | assets/js/app.js:364-369 | the picker's default "YYYY-MM" value with "-01" appended reads back as the 1st of that month |
| `MonthWindow.ToUtc` | assets/js/stats.js:61-62 | `new Date(y, m, d)` is the UTC moment whose local time is that wall-clock time |
| `MonthWindow.MonthValueParses` | assets/js/stats.js:59 | the picked value with "-01" appended parses to UTC midnight of the 1st of the picked month |
| `MonthWindow.ReferenceDate` | assets/js/stats.js:59-62 | the month `getFullYear`/`getMonth` read is the current month when the picker is empty. For a picked month it is that month at or east of UTC, and the month before it west of UTC |
| `MonthWindow.FilterDates` | assets/js/stats.js:56-68 | as written: the offset step undoes the local-to-UTC conversion exactly, so the strings are the first and last day of the built month: the reference date's month, with a year y below 100 taken as 1900 + y |
| `MonthWindow.BuiltMonth` | assets/js/stats.js:61-62 | `new Date(getFullYear(), getMonth(), 1)` lies in the reference date's month, except that a year y below 100 becomes 1900 + y |
| `MonthWindow.TwoDigitYearsShift` | assets/js/stats.js:59-66 | "0050-03" picked at UTC sends 1 to 31 March 1950, not the picked month |
| `MonthWindow.PickedMonthWestOfUtc` | assets/js/app.js:73-85 | west of UTC (offset > 0) the window as written is the previous month's, never the picked one's (for a previous month from year 100 on) |
| `MonthWindow.MarchBecomesFebruary` | assets/js/stats.js:59-66 | March 2024 picked at offset 300 sends 2024-02-01 to 2024-02-29; the corrected window is 2024-03-01 to 2024-03-31 |
| `MonthWindow.PickedMonthEastOfUtc` | assets/js/app.js:69-88 | at or east of UTC the window as written equals the corrected one, for a picked year from 100 on |
| `MonthWindow.CurrentMonthIsRight` | assets/js/app.js:76-80 | with the picker empty, the window as written equals the corrected one in every time zone (for a current year from 100 on) |
| `MonthWindow.MonthBounds` | assets/js/app.js:79-80 | the window's start reads back as the 1st of the month and its end as the month's last day |
| `MonthWindow.IntendedFilterDates` | assets/js/stats.js:61-66 | corrected: the start reads back as the 1st and the end as the last day of the picked month, or of the current month when the picker is empty, whatever the host's time zone |
| `MonthWindow.IntendedWindowIsTheMonth` | assets/js/stats.js:61-62 | the corrected window starts on day 1, ends on the last day (the next day is the 1st of the next month), and every day of the month lies between the two |
| `MonthWindow.WindowReachesUpstream` | assets/js/app.js:102-124 | the corrected window's dates read back as the shown month's first and last day. The list request's gateway payload carries both dates; the dashboard figures payload carries the first with the dashboard action |
| `Dashboard.AddToChart` | assets/js/app.js:255-259 | adding a transaction keeps the series aligned with the labels, and the labels free of repeats |
| `Dashboard.GoesToIncome` | assets/js/app.js:257-258 | an explicit income goes to income, an explicit expense never; an untyped amount goes to income when not negative, one of any other type when positive |
| `Dashboard.AddToChartEffect` | assets/js/app.js:253-259 | a new day opens one bucket at the end. Every bucket grows by the transaction's share of its day, which is the absolute amount on exactly one of the two series |
| `Dashboard.Buckets` | assets/js/app.js:252-260 | the chart built from any sequence is aligned and its labels are distinct |
| `Dashboard.Dedup` | assets/js/app.js:261 | the keys without repeats, in the order of their first occurrences: same members, no repeats, and an earlier key first occurs earlier |
| `Dashboard.BucketLabels` | assets/js/app.js:255-261 | the labels are the days of the transactions in order of first occurrence, each once (`Object.keys` insertion order) |
| `Dashboard.BucketTotals` | assets/js/app.js:252-260 | each label's income and expense are the sums of that day's income-side and expense-side absolute amounts |
| `Dashboard.BucketsTotal` | assets/js/app.js:258-259 | the two series together add up to the sum of the absolute amounts: nothing is lost or counted twice |
| `Dashboard.UpdateChartFromData` | assets/js/app.js:248-266 | the loop over the sorted transactions with its map of day totals produces exactly the specified chart `ChartOf` |
| `Dashboard.Tally` | assets/js/app.js:252-260 | one turn of the `forEach`: the day is opened at zero if new and appended to the insertion order, then the amount is added to income or expense |
| `Dashboard.Series` | assets/js/app.js:261-264 | `labels.map(l => dateMap[l].income)` (or `.expense`), index by index |
| `Dashboard.ChartOfTransactions` | assets/js/app.js:250-264 | the drawn chart is aligned. Its labels are distinct, in date order of first occurrence, and are exactly the days that occur. Each day has its totals. The sum is the sum of absolute amounts. No transactions give an empty chart |
| `Dashboard.ChartOfAnyOrder` | assets/js/app.js:250-260 | the day set, the day totals and the grand total do not depend on the order the transactions arrive in |
| `Dashboard.SameDayBucket` | assets/js/app.js:253-259 | a 50 000 expense and a 200 000 income on 2 March make the single bucket "2 Mar" with income 200 000 and expense 50 000 |
| `Dashboard.FindCategory` | assets/js/app.js:163 | the first category with that id, and none exactly when no category has it |
| `Dashboard.CategoryLabel` | assets/js/app.js:161-166 | `category`, else `category_name`, else the looked-up category's name, else "Uncategorized"; never empty |
| `Dashboard.RenderRow` | assets/js/app.js:155-181 | the amount shown is the absolute amount. The sign is '-' exactly for an expense type or a negative amount. The title is the note unless it is blank after trimming, else the category |
| `Dashboard.RecentRows` | assets/js/app.js:153 | the first min(10, n) transactions, in the order received |
| `Dashboard.SignedRowAmount` | assets/js/app.js:156-181 | for an untyped record, the sign and the absolute amount shown give back the stored amount |
| `Dashboard.RowSignMatchesChart` | assets/js/app.js:179-181 | for a non-zero amount whose income type is not contradicted by its sign, the list shows '+' exactly for what the chart counts as income |
| `Dashboard.TypeIdFor` | assets/js/app.js:274 | type id 1 exactly for "income", 2 for any other type |
| `Dashboard.CategoryOptions` | assets/js/app.js:270-281 | exactly the categories of that type id, in their original order, each as often as it occurs |
| `Dashboard.SubmittedAmount` | assets/js/app.js:291-292 | the magnitude is kept; an expense is stored non-positive and anything else non-negative |
| `Dashboard.SubmitBody` | assets/js/app.js:289-294 | exactly the keys amount, date, category_name, note and type: the signed amount, or null for an amount that is not a number; the date and note as typed; category and type, or null when none is chosen |
| `Dashboard.SubmitRequest` | assets/js/app.js:300-302 | PUT to the edited id exactly while editing, POST otherwise, with the form's body |
| `Dashboard.NewTransactionAccepted` | assets/js/app.js:287-302 | a submitted form passes the gateway's POST check exactly when the amount is a non-zero number and a date and a type are given |
| `Dashboard.Prefill` | assets/js/app.js:320-326 | the edit form gets the inferred type, the absolute amount and the note. The category is kept only when the select offers it, among the loaded categories of that type; otherwise none is selected. The date field reads back as the record's date |
| `Dashboard.EditRoundTrip` | assets/js/app.js:314-328 | saving an edited record unchanged sends back its amount, its type and its note whenever its sign agrees with its type; its category only when the select offers it, null otherwise |
| `Dashboard.SavedRecordsAgree` | assets/js/app.js:292 | whatever amount is typed, a saved record's sign agrees with its type, so the list and the chart agree on it |
| `Dashboard.TransactionForm.constructor` | assets/js/app.js:10 | `editingId` starts out null |
| `Dashboard.TransactionForm.OpenEdit` | assets/js/app.js:314-328 | remembers the record's id. A record of type income or expense fills the form as `Prefill` does; any other type has no radio button, and the modal does not open |
| `Dashboard.TransactionForm.OpenNew` | assets/js/app.js:329-341 | clears `editingId` |
| `Dashboard.TransactionForm.Close` | assets/js/app.js:342-346 | clears `editingId` |
| `Dashboard.TransactionForm.Submit` | assets/js/app.js:287-310 | sends PUT while editing and POST otherwise, through `authFetch`. On an ok answer it shows "Updated!" or "Saved!", clears `editingId` and sends the two refresh requests, three requests in all; the latch is then set exactly when a refresh is answered 401. Otherwise it shows the error and leaves `editingId`: one request, the latch set exactly on a 401, and none when the latch was already set |
| `Dashboard.OrZero` | assets/js/app.js:145-147 | `v \|\| 0`: v when truthy, 0 otherwise |
| `Dashboard.ShownFigures` | assets/js/app.js:102-117 | nothing is drawn when `authFetch` gave null. An error answer, a network failure or a JSON null body shows zeros. Otherwise balance, income and expense are those of `data.data \|\| data`, each 0 when falsy |
| `Dashboard.SidebarName` | assets/js/app.js:383 | the full name, or else the part of the e-mail address before its first '@' |
| `ExpenseStats.TotalPages` | assets/js/stats.js:175 | the fewest pages of ten that hold n items (`Math.ceil(n / 10)`); 0 exactly for n = 0 |
| `ExpenseStats.PageSlice` | assets/js/stats.js:143-145 | page p holds the items at positions (p-1)·10 up to p·10, cut short at the end |
| `ExpenseStats.PagesConcatenate` | assets/js/stats.js:14 | pages 1 to ceil(n/10) laid end to end give back the list: no gaps, no duplicates |
| `ExpenseStats.PageInfo` | assets/js/stats.js:174-188 | n = 0 gives "Page 0 of 0" with both buttons disabled. Otherwise prev is disabled exactly on page 1 and next exactly on the last page |
| `ExpenseStats.ExpenseCategory` | assets/js/stats.js:149 | `category`, else `category_name`, else "Uncategorized"; never empty |
| `ExpenseStats.ExpenseRowOf` | assets/js/stats.js:147-150 | the absolute amount; the note, or the category when there is no note; never an empty description |
| `ExpenseStats.MonthlyExpenses` | assets/js/stats.js:118-119 | exactly the transactions with a negative amount, each as often as received, newest first |
| `ExpenseStats.SearchResults` | assets/js/stats.js:303-307 | the expenses that match the term, in table order, each as often as in the table |
| `ExpenseStats.Matches` | assets/js/stats.js:303-306 | an expense is found exactly when the lower-cased term is in its lower-cased note, or, when it has a category, in its lower-cased category. So an empty term finds everything, and an uncategorised expense is found by its note only, not by the "Uncategorized" the table shows |
| `ExpenseStats.SearchIgnoresCase` | assets/js/stats.js:302-306 | a term typed in capitals finds the same expenses |
| `ExpenseStats.EmptySearchKeepsAll` | assets/js/stats.js:301-308 | an empty term restores every loaded expense |
| `ExpenseStats.SearchNarrows` | assets/js/stats.js:302-306 | a term contained in a longer term finds everything the longer one finds |
| `ExpenseStats.NumberedFrom` | assets/js/stats.js:338-350 | report rows are numbered consecutively, one per expense, in table order |
| `ExpenseStats.ColumnSum` | assets/js/stats.js:352 | the report's Amount column adds up to the sum of the absolute amounts |
| `ExpenseStats.ExpenseTable.constructor` | assets/js/stats.js:6-13 | empty lists, page 1 |
| `ExpenseStats.ExpenseTable.Load` | assets/js/stats.js:118-122 | the month's expenses newest first. The filtered list equals them and the page is 1. The table invariant holds |
| `ExpenseStats.ExpenseTable.Fetch` | assets/js/stats.js:106-129 | loads the listed transactions after an answer whose body is not null, whatever its status. Nothing changes after null (the latch), a network failure, or a JSON null body (reading `.data` of null throws into the catch) |
| `ExpenseStats.ExpenseTable.Search` | assets/js/stats.js:301-309 | the filtered list is the search result over the loaded expenses, which stay untouched; page 1 |
| `ExpenseStats.ExpenseTable.Prev` | assets/js/stats.js:190 | back one page only when past page 1, otherwise nothing changes |
| `ExpenseStats.ExpenseTable.Next` | assets/js/stats.js:191 | on one page only when before the last page, otherwise nothing changes |
| `ExpenseStats.ExpenseTable.Pagination` | assets/js/stats.js:185-191 | on a valid table each button is disabled exactly when clicking it would change nothing |
| `ExpenseStats.ExpenseTable.PageRows` | assets/js/stats.js:133-150 | the current page's rows, at most ten. They are empty only when nothing is filtered in |
| `ExpenseStats.ExpenseTable.Export` | assets/js/stats.js:312-352 | refused exactly when nothing is filtered in. Otherwise there is one numbered row per expense. The total is the sum of the absolute amounts, equals the Amount column's sum and is non-negative |
| `ExpenseStats.Tenths` | assets/js/stats.js:203 | amount/total·100 rounded to a tenth (half away from zero); 0 when the total is not positive |
| `ExpenseStats.TenthsAddUp` | assets/js/stats.js:196-203 | the rounded shares of n non-negative entries are within half a tenth each of their exact sum |
| `ExpenseStats.PercentagesAddUp` | assets/js/stats.js:196-203 | with the total taken from the same list, the shown percentages add up to 100 % within n/20 % |
| `ExpenseStats.Color` | assets/js/stats.js:199-204 | one of the seven palette colours; the first seven positions get the palette in order |
| `ExpenseStats.ColorsCycle` | assets/js/stats.js:204 | colours repeat every seven entries, and any seven neighbouring entries all differ: colour depends on position, not category |
| `ExpenseStats.Breakdown` | assets/js/stats.js:195-213 | one slice per entry, with its share of the list's total and the colour of its position |
| `ExpenseStats.CategoryPanel` | assets/js/stats.js:82-104 | error for null, non-ok, a network failure or a JSON null body (its `.data` throws); "No expenses this month." exactly for an ok, non-null, empty list; otherwise the breakdown |
| `Profile.DisplayName` | assets/js/profile.js:78 | the full name, or "User" |
| `Profile.Initials` | assets/js/profile.js:82-84 | the upper-cased characters that start a space-separated word of the displayed name, at most two |
| `Profile.InitialsHaveNoSpaces` | assets/js/profile.js:83 | empty words contribute nothing: no initial is a space |
| `Profile.NoNameInitial` | assets/js/profile.js:82 | without a name the avatar shows "U" |
| `Profile.TwoWordInitials` | assets/js/profile.js:83 | a two-word name gives the upper-cased first letters of both words |
| `Profile.ShownStats` | assets/js/profile.js:38-56 | nothing is updated after null, a non-ok answer, a network failure, or a JSON null body (reading `data.data` throws). Otherwise the figures of `data.data \|\| data`: the count falls back to 0 only when null or undefined, and the amounts whenever falsy |
| `Profile.CountAndAmountFallbacksDiffer` | assets/js/profile.js:50-52 | `??` and `\|\|` differ exactly on falsy values other than null, undefined and 0 |
| `Text.Trim` | assets/js/app.js:167 | empty exactly for an all-white-space string; otherwise it starts and ends with a non-blank |
| `Text.FirstCharsOfSplit` | assets/js/profile.js:83 | the first characters of the pieces of `split(' ')` are exactly the characters that start a word |
| `Text.FirstPiece` | assets/js/app.js:383 | `split('@')[0]` is everything before the first '@', or the whole string |
| `Seqs.Filter` | assets/js/stats.js:118 | `filter` keeps, in order, exactly the elements that pass, each as often as before |
| `Seqs.SumOfPermutation` | assets/js/stats.js:352 | a `reduce` sum does not depend on the order of the elements |

## Left out

- `Ledger.SortBy`: it is a stable insertion sort, but its contract does not state stability. `Array.prototype.sort` is stable, and ties between equal dates keep their order.
- The chart label (`assets/js/app.js:253-254`) comes from `new Date(txn.date)`. That is UTC midnight, and `getDate()` reads it in local time, so west of UTC each transaction lands on the day before. The model keys buckets by the record's calendar date. This is the cause behind the month-window finding, but it is not modelled for the chart.
- The month name in the chart label comes from `toLocaleString`. The model uses the month number.
- `initChart` and the `if (!expenseChart) return` guard are Chart.js setup and are not modelled.
- The category icon and colour fallback (`assets/js/app.js:169-177`) is presentation.
- These are not modelled: DOM rendering, toasts, Chart.js, the jsPDF layout, and the report's period text and file name.
- `Intl.NumberFormat` and `toLocaleDateString` formatting are not modelled.
- `toFixed(1)` gives a string. The model gives the integer count of tenths, so the display difference between "0" (total not positive) and "0.0" is not modelled.
- Floating point is not modelled. `parseFloat` and `Number` amounts are integers, and NaN appears only as a form amount that is not a number.
- JSON decoding of response bodies is left out. The `data || (Array.isArray ? … : [])` unwrapping is not modelled: the transactions or category entries an answer lists are parameters. A body that decodes to null is modelled: reading a property of it throws into the catch.
- Daylight saving time is left out: the offset is fixed, and its size is below a day.
- The current date and the offset come from the host clock and are parameters.
- The new-transaction form's default date (local today, `assets/js/app.js:336-338`) depends on the host clock and is not modelled.
- `deleteTransaction` (`assets/js/app.js:347-355`, `assets/js/stats.js:225-233`): the confirmation dialog and the toasts are left out. The request it sends is the gateway's DELETE route, which is modelled.
- `fetchCategories` is left out: the category list is a parameter. When the edit modal opens before the first load, `Dashboard.Prefill` gets an empty list, and the options drawn later by `fetchCategories` are not modelled.
- `Text.Upper` and `Text.Lower` cover ASCII letters only. `toUpperCase` and `toLowerCase` also map other letters, some to two characters.
- `Profile.Initials`: `n[0]` takes a UTF-16 code unit, and the model takes a whole character.
- `Dashboard.TransactionForm.Submit`: the refresh answers are not rendered here. What they draw is modelled by `Dashboard.ShownFigures`, `Dashboard.ChartOf` and `ExpenseStats.ExpenseTable.Fetch`.
- The stats page's add/edit form (`assets/js/stats.js:234-300`) is the same code as the dashboard's, apart from toast texts. It is modelled once, by `Dashboard.TransactionForm`, `Dashboard.Prefill` and `Dashboard.SubmitRequest`.
- `authFetch`'s headers, the alert text and the navigation to the login page are left out. Only their occurrence is counted.
- Fetches started without waiting are modelled only for the save handler's two refreshes (`Session.AuthSession.Send` then `Receive`). Every other call is one awaited `AuthFetch`. Which refresh answer arrives first is not modelled; the latch ends the same either way.
- The page-load redirect when no token is stored is left out.
- The password change form and the join-date formatting of the profile page are left out.
- `assets/js/auth.js` is not part of this model: its login, registration and logout are identity-provider SDK calls.
- `api/utils/supabase.js` is not part of this model: it only builds the SDK client.
- The Express, cors and axios setup, the health endpoint and its timestamp, and the server start-up are transport and are left out.

## Findings

| source | as written | input that shows it | evidently intended | confidence | as-written member | corrected member |
|---|---|---|---|---|---|---|
| assets/js/stats.js:59-66 | `new Date(value + '-01')` is UTC midnight of the 1st, but `getFullYear`/`getMonth` read it in local time; west of UTC that is still the previous month, so the window is the previous month's | month picker "2024-03" on a host with `getTimezoneOffset()` = 300 (UTC-5): start "2024-02-01", end "2024-02-29" | the picked month in every time zone: "2024-03-01" to "2024-03-31" | high; not executed | `MonthWindow.MarchBecomesFebruary` | `MonthWindow.IntendedFilterDates` |
| assets/js/app.js:73-85 | the same code on the dashboard: west of UTC the figures and the list are those of the month before the picked one | month picker "2024-03" with offset 300: the list request sends start=2024-02-01 and end=2024-02-29 | the picked month's first and last day | high; not executed | `MonthWindow.PickedMonthWestOfUtc` | `MonthWindow.IntendedWindowIsTheMonth` |
| assets/js/stats.js:61-62 | `new Date(date.getFullYear(), date.getMonth(), 1)` and `new Date(…, date.getMonth() + 1, 0)` take a year below 100 as 1900 + year | month picker "0050-03" at UTC: start "1950-03-01", end "1950-03-31" | the picked month: "0050-03-01" to "0050-03-31" | low (such years are unlikely picks); not executed | `MonthWindow.TwoDigitYearsShift` | `MonthWindow.IntendedFilterDates` |
