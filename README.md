# Loan dashboard view logic, in Dafny

This project models the view logic of the loan-management dashboard, a React page. Borrowers and administrators see loan applications on it. The model covers:

- **Charts**: the three aggregations behind the charts. These are the status distribution pie, the monthly application trend and the amount-by-purpose bars.
- **Filter**: the search and status filter over the fetched applications.
- **Page state**: the state the page keeps and the transitions that load it. These are the session check on mount, the role-dependent fetch, the EMI (equated monthly instalment) fetch and the EMI payment.
- **Application cards**: which action buttons a card offers for a role and status, its accent colour, and which list body wins. It also covers the two administrator handlers (status update and disbursement).
- **EMI dialog**: its rows, its Pay Now buttons and its loading, table and empty states.
- **Filter menu**: its options, its button label and its menu state.

HTTP is not modelled as calls. Each request is a `Loans.Request` value:

- `DashboardState` appends every request it issues to its `sent` log.
- The two list handlers return the request they would send.
- The settled outcome of a request is a `Loans.Reply` parameter: `Success(data)` or `Failure(message)`.

Every handler runs as one atomic step. JavaScript truthiness is written out where the code relies on it:

- an id of 0 is falsy;
- an empty role or message is falsy;
- a missing or null name or purpose makes `?.` yield `undefined`; the field type `Loans.JsField` keeps missing and null apart because they print differently as property names.

Files:

- `text.dfy`:
  - module `Seqs`: subsequence and distinctness;
  - module `Text`: ASCII `toLowerCase`/`toUpperCase`, `includes`, and the code-point order used for `localeCompare`.
- `loans.dfy` (`Loans`): the records, the principal, replies, requests and palette colours.
- `charts.dfy` (`Charts`): `getStatusData`, `getMonthlyData` and `getPurposeData`.
- `dashboard.dfy` (`Dashboard`): the filter predicate and the `DashboardState` class.
- `dashboard_filters.dfy` (`DashboardFilters`): the status menu and the `FilterControls` class.
- `applications_list.dfy` (`ApplicationsList`): cards, list body, banner and the administrator handlers.
- `emi_dialog.dfy` (`EmiDialog`): the EMI dialog.

`getMonthlyData` updates a dictionary in a loop, so it is the method `Charts.MonthlyData` with loop invariants. It is proved against `MonthlySpec`, which says the following:

- the buckets are strictly ascending by month and their months are exactly the input's month keys;
- each bucket holds that month's total and approved count.

The two `reduce` folds are recursive functions. The page state and the filter menu state are classes whose methods change their fields.

Some behaviours of the code are easy to misread. The model keeps them as written:

- An application whose purpose is missing is summed under the key `"undefined"`, and one whose purpose is null under `"null"` (`acc[app.purpose]`). Neither is dropped.
- A failed application fetch sets the error and leaves the previous list in place. It does not empty the list.
- A successful fetch does not clear an earlier error.
- An unparseable date is counted under its `"NaN-NaN"` month key. It is not excluded.

## Model

| member | source | states |
|---|---|---|
| Text.ToLower | Professional-Loan-Management-Systems-recovery-branch/src/dashboard/Dashboard.jsx:97-98 | the result has the input's length and lower-cases each character in place |
| Text.ToUpper | Professional-Loan-Management-Systems-recovery-branch/src/dashboard/ApplicationsList.jsx:69 | the result has the input's length and upper-cases each character in place |
| Text.ToLowerIdempotent | Professional-Loan-Management-Systems-recovery-branch/src/dashboard/Dashboard.jsx:97-98 | lower-casing twice equals lower-casing once |
| Text.ToLowerAfterToUpper | Professional-Loan-Management-Systems-recovery-branch/src/dashboard/ApplicationsList.jsx:69-71 | lower-casing an upper-cased string gives the lower-cased original |
| Text.ToUpperHasNoLowerCase | Professional-Loan-Management-Systems-recovery-branch/src/dashboard/ApplicationsList.jsx:69 | an upper-cased string contains no lower-case letter |
| Text.Includes | Professional-Loan-Management-Systems-recovery-branch/src/dashboard/Dashboard.jsx:97-98 | true exactly when the query occurs as a contiguous substring at some index |
| Text.StrLessIrreflexive | Professional-Loan-Management-Systems-recovery-branch/src/dashboard/DashboardCharts.jsx:69-71 | no month key sorts before itself |
| Text.StrLessTransitive | Professional-Loan-Management-Systems-recovery-branch/src/dashboard/DashboardCharts.jsx:69-71 | the month-key order is transitive |
| Text.StrLessTotal | Professional-Loan-Management-Systems-recovery-branch/src/dashboard/DashboardCharts.jsx:69-71 | any two different keys are ordered one way or the other |
| Loans.ErrorText | Professional-Loan-Management-Systems-recovery-branch/src/dashboard/Dashboard.jsx:55-56 | the server message when it is truthy, else the fallback; never empty when the fallback is not |
| Charts.CountStatusesCorrect | Professional-Loan-Management-Systems-recovery-branch/src/dashboard/DashboardCharts.jsx:23-29 | each of the four counters equals the number of applications with exactly that status |
| Charts.PositiveSlices | Professional-Loan-Management-Systems-recovery-branch/src/dashboard/DashboardCharts.jsx:51 | keeps, in order, exactly the entries whose value is positive |
| Charts.StatusData | Professional-Loan-Management-Systems-recovery-branch/src/dashboard/DashboardCharts.jsx:22-52 | a subsequence of Pending, Approved, Rejected, Disbursed (fixed order); a status appears iff some application has it; every value is positive |
| Charts.PositiveSlicesCounts | Professional-Loan-Management-Systems-recovery-branch/src/dashboard/DashboardCharts.jsx:51 | each positive entry is kept as many times as it occurs, and no other entry is kept |
| Charts.PositiveSlicesKeepSum | Professional-Loan-Management-Systems-recovery-branch/src/dashboard/DashboardCharts.jsx:51 | dropping zero entries keeps the sum of values |
| Charts.ChartedCountIsOccurrenceSum | Professional-Loan-Management-Systems-recovery-branch/src/dashboard/DashboardCharts.jsx:28 | the number of applications with one of the four statuses is the sum of the four occurrence counts |
| Charts.StatusDataSum | Professional-Loan-Management-Systems-recovery-branch/src/dashboard/DashboardCharts.jsx:23-51 | the pie's values add up to the number of applications whose status is one of the four |
| Charts.UnchartedStatusIgnored | Professional-Loan-Management-Systems-recovery-branch/src/dashboard/DashboardCharts.jsx:25-28 | adding an application with another status (e.g. CLOSED) leaves the pie unchanged |
| Charts.ApprovedAtMostTotal | Professional-Loan-Management-Systems-recovery-branch/src/dashboard/DashboardCharts.jsx:65-67 | in every month the approved-or-disbursed count is at most the month's total |
| Charts.AbsentMonthCountsNothing | Professional-Loan-Management-Systems-recovery-branch/src/dashboard/DashboardCharts.jsx:63-67 | a month no application falls in has zero total and zero approved |
| Charts.InsertByMonth | Professional-Loan-Management-Systems-recovery-branch/src/dashboard/DashboardCharts.jsx:69-71 | inserting a bucket with a new month into an ascending list keeps it ascending and adds exactly that bucket |
| Charts.SortByMonth | Professional-Loan-Management-Systems-recovery-branch/src/dashboard/DashboardCharts.jsx:69-71 | the sorted buckets are strictly ascending by month and a permutation of the input |
| Charts.ValuesInOrder | Professional-Loan-Management-Systems-recovery-branch/src/dashboard/DashboardCharts.jsx:69 | `Object.values`: one bucket per key in insertion order, with distinct months |
| Charts.TallyStep | Professional-Loan-Management-Systems-recovery-branch/src/dashboard/DashboardCharts.jsx:63-67 | creating the bucket if missing and incrementing it keeps every bucket equal to the counts of the applications seen so far |
| Charts.TallyByMonth | Professional-Loan-Management-Systems-recovery-branch/src/dashboard/DashboardCharts.jsx:56-68 | after the pass the dictionary holds exactly the months seen, each with its total and approved counts, and its insertion order lists each key once |
| Charts.DictionaryBucketsMeetSpec | Professional-Loan-Management-Systems-recovery-branch/src/dashboard/DashboardCharts.jsx:56-71 | the sorted dictionary values have exactly the input's month keys and each holds that month's counts |
| Charts.MonthlyData | Professional-Loan-Management-Systems-recovery-branch/src/dashboard/DashboardCharts.jsx:55-72 | ascending distinct months, exactly the input's keys, per-month total and approved counts; totals add up to the input length; approved never exceeds total |
| Charts.MonthlyConservation | Professional-Loan-Management-Systems-recovery-branch/src/dashboard/DashboardCharts.jsx:57-65 | any bucket list meeting the monthly specification has totals summing to the number of applications |
| Charts.Upsert | Professional-Loan-Management-Systems-recovery-branch/src/dashboard/DashboardCharts.jsx:77 | adding an amount under a purpose adds that key, keeps keys distinct, and raises that purpose's and the overall total by the amount |
| Charts.LoanTotalSnoc | Professional-Loan-Management-Systems-recovery-branch/src/dashboard/DashboardCharts.jsx:76-79 | the overall loan total grows by the last application's amount |
| Charts.PurposeData | Professional-Loan-Management-Systems-recovery-branch/src/dashboard/DashboardCharts.jsx:75-84 | one bar per distinct purpose key (`"undefined"` for a missing purpose, `"null"` for a null one); each bar's amount is the sum over the applications with that key; the bars sum to the total loan amount |
| Charts.DistinctAmountIn | Professional-Loan-Management-Systems-recovery-branch/src/dashboard/DashboardCharts.jsx:80-83 | with distinct keys, the amount looked up for a bar's purpose is that bar's amount |
| Charts.AbsentPurposeAmount | Professional-Loan-Management-Systems-recovery-branch/src/dashboard/DashboardCharts.jsx:80-83 | a purpose with no bar has amount zero |
| Charts.PurposeBarIsSum | Professional-Loan-Management-Systems-recovery-branch/src/dashboard/DashboardCharts.jsx:76-83 | every bar's amount is the sum of the loan amounts of the applications with that purpose |
| Dashboard.FilterApplications | Professional-Loan-Management-Systems-recovery-branch/src/dashboard/Dashboard.jsx:95-101 | an order-preserving subsequence that keeps each matching application as many times as it occurs and drops every other; every kept one has a name or purpose |
| Dashboard.FilterKeepsAllMatching | Professional-Loan-Management-Systems-recovery-branch/src/dashboard/Dashboard.jsx:95-101 | when every application matches, the filtered list is the fetched list |
| Dashboard.FilterIdempotent | Professional-Loan-Management-Systems-recovery-branch/src/dashboard/Dashboard.jsx:95-101 | filtering a filtered list again with the same query and status changes nothing |
| Dashboard.SearchIgnoresQueryCase | Professional-Loan-Management-Systems-recovery-branch/src/dashboard/Dashboard.jsx:96-98 | upper- or lower-casing the query does not change the search result |
| Dashboard.UpperField | Professional-Loan-Management-Systems-recovery-branch/src/dashboard/Dashboard.jsx:96-98 | upper-cases a present field and keeps a missing or null one |
| Dashboard.SearchIgnoresRecordCase | Professional-Loan-Management-Systems-recovery-branch/src/dashboard/Dashboard.jsx:96-98 | upper-casing whichever of the name and purpose is present does not change the search result, for every application |
| Dashboard.EmptyQueryNeedsText | Professional-Loan-Management-Systems-recovery-branch/src/dashboard/Dashboard.jsx:96-98 | the empty query matches exactly the applications with a name or a purpose |
| Dashboard.EndpointFor | Professional-Loan-Management-Systems-recovery-branch/src/dashboard/Dashboard.jsx:47-50 | the all-applications endpoint iff the role is ADMIN, else the user endpoint for the session's id |
| Dashboard.DashboardState.constructor | Professional-Loan-Management-Systems-recovery-branch/src/dashboard/Dashboard.jsx:17-28 | empty list, loading, no error, empty query, status ALL, menu and EMI dialog closed, nothing sent |
| Dashboard.DashboardState.FilteredApplications | Professional-Loan-Management-Systems-recovery-branch/src/dashboard/Dashboard.jsx:95-101 | the list handed to the cards is a subsequence of the fetched list |
| Dashboard.DashboardState.CurrentScreen | Professional-Loan-Management-Systems-recovery-branch/src/dashboard/Dashboard.jsx:103-124 | an error screen whenever the error is truthy; otherwise the spinner exactly while loading; otherwise the dashboard |
| Dashboard.DashboardState.Mount | Professional-Loan-Management-Systems-recovery-branch/src/dashboard/Dashboard.jsx:32-41 | without id and role: session error, loading off, nothing sent; otherwise the role's list is fetched with the outcomes below |
| Dashboard.DashboardState.FetchApplications | Professional-Loan-Management-Systems-recovery-branch/src/dashboard/Dashboard.jsx:44-61 | sends the role's endpoint; success replaces the list (non-array data gives `[]`); failure records the server message or the default; loading ends |
| Dashboard.DashboardState.FetchEMIs | Professional-Loan-Management-Systems-recovery-branch/src/dashboard/Dashboard.jsx:64-79 | records the id and sends the request; success stores the list (or `[]`) and opens the dialog; failure empties the list and leaves the dialog as it was; EMI loading ends |
| Dashboard.DashboardState.HandlePayEmi | Professional-Loan-Management-Systems-recovery-branch/src/dashboard/Dashboard.jsx:82-92 | sends the payment; on success re-fetches the same application's EMIs; on failure nothing else changes |
| Dashboard.DashboardState.CloseEmiDialog | Professional-Loan-Management-Systems-recovery-branch/src/dashboard/Dashboard.jsx:154 | the dialog is closed afterwards |
| DashboardFilters.FindOption | Professional-Loan-Management-Systems-recovery-branch/src/dashboard/DashboardFilters.jsx:85 | the first option with the value, or none exactly when no option has it |
| DashboardFilters.FilterLabel | Professional-Loan-Management-Systems-recovery-branch/src/dashboard/DashboardFilters.jsx:85 | the matching option's label; "Filter" exactly when no option matches |
| DashboardFilters.UnknownStatusShowsFallback | Professional-Loan-Management-Systems-recovery-branch/src/dashboard/DashboardFilters.jsx:85 | CLOSED shows "Filter" |
| DashboardFilters.SelectedFlags | Professional-Loan-Management-Systems-recovery-branch/src/dashboard/DashboardFilters.jsx:92-97 | one flag per option, set exactly for the option equal to the filter |
| DashboardFilters.SelectionIsUnique | Professional-Loan-Management-Systems-recovery-branch/src/dashboard/DashboardFilters.jsx:96 | at most one option is selected, and exactly one iff the filter is one of the five values |
| DashboardFilters.FilterControls.constructor | Professional-Loan-Management-Systems-recovery-branch/src/dashboard/Dashboard.jsx:20-22 | empty query, status ALL, no anchor, so the menu is closed |
| DashboardFilters.FilterControls.HandleSearchChange | Professional-Loan-Management-Systems-recovery-branch/src/dashboard/DashboardFilters.jsx:76 | the query becomes the typed text; status and menu unchanged |
| DashboardFilters.FilterControls.HandleFilterClick | Professional-Loan-Management-Systems-recovery-branch/src/dashboard/DashboardFilters.jsx:56-58 | anchors the menu to the button, which opens it |
| DashboardFilters.FilterControls.HandleFilterClose | Professional-Loan-Management-Systems-recovery-branch/src/dashboard/DashboardFilters.jsx:60-62 | clears the anchor, which closes the menu |
| DashboardFilters.FilterControls.HandleStatusFilterChange | Professional-Loan-Management-Systems-recovery-branch/src/dashboard/DashboardFilters.jsx:64-67 | the filter becomes the chosen value, the menu closes, the query is kept, and the button shows the option's label |
| ApplicationsList.StatusAccent | Professional-Loan-Management-Systems-recovery-branch/src/dashboard/ApplicationsList.jsx:212-220 | success iff APPROVED, error iff REJECTED, primary iff DISBURSED, warning otherwise |
| ApplicationsList.AccentMatchesChart | Professional-Loan-Management-Systems-recovery-branch/src/dashboard/ApplicationsList.jsx:212-220 | a card's colour is the pie's colour for the same status |
| ApplicationsList.CardActions | Professional-Loan-Management-Systems-recovery-branch/src/dashboard/ApplicationsList.jsx:320-409 | View Documents iff admin; Approve and Reject iff admin and PENDING; Disburse iff admin and APPROVED; View/Pay EMIs iff not admin and DISBURSED; no duplicates |
| ApplicationsList.ActionsSplitByRole | Professional-Loan-Management-Systems-recovery-branch/src/dashboard/ApplicationsList.jsx:320-409 | no card has both admin and borrower buttons, none has more than three, and a borrower's non-disbursed card has none |
| ApplicationsList.OnClick | Professional-Loan-Management-Systems-recovery-branch/src/dashboard/ApplicationsList.jsx:332-405 | View Documents does nothing; Approve and Reject update the status (to APPROVED and REJECTED), Disburse Loan disburses and View/Pay EMIs opens the EMIs, each for its own card's id |
| ApplicationsList.Cards | Professional-Loan-Management-Systems-recovery-branch/src/dashboard/ApplicationsList.jsx:198-199 | one card per application, in list order |
| ApplicationsList.Body | Professional-Loan-Management-Systems-recovery-branch/src/dashboard/ApplicationsList.jsx:167-194 | the intended body: skeletons iff loading; else the error iff truthy; else the empty notice iff no applications; else the cards |
| ApplicationsList.BodyAsWritten | Professional-Loan-Management-Systems-recovery-branch/src/dashboard/ApplicationsList.jsx:167-194 | the code's render: a ReferenceError on `Skeleton` iff loading; otherwise the intended body |
| ApplicationsList.LoadingListThrows | Professional-Loan-Management-Systems-recovery-branch/src/dashboard/ApplicationsList.jsx:172 | with loading set the written list throws, where the intended one shows three skeletons |
| ApplicationsList.CountBanner | Professional-Loan-Management-Systems-recovery-branch/src/dashboard/ApplicationsList.jsx:162-166 | shown iff not loading, no error and non-empty; counts the applications; plural iff more than one |
| ApplicationsList.BannerCountsCards | Professional-Loan-Management-Systems-recovery-branch/src/dashboard/ApplicationsList.jsx:162-198 | the banner appears exactly with the card grid and counts its cards |
| ApplicationsList.DashboardListShowsCards | Professional-Loan-Management-Systems-recovery-branch/src/dashboard/Dashboard.jsx:145-149 | the dashboard passes no loading or error, so its list never throws and shows the cards or the empty notice |
| ApplicationsList.FindApplication | Professional-Loan-Management-Systems-recovery-branch/src/dashboard/ApplicationsList.jsx:81-83 | the first application with the id, or none exactly when no application has it |
| ApplicationsList.HandleStatusUpdate | Professional-Loan-Management-Systems-recovery-branch/src/dashboard/ApplicationsList.jsx:64-76 | sends the status upper-cased (no lower-case letters, same letters); success toasts the lower-cased status and reloads; failure toasts the server message or "Status update failed" |
| ApplicationsList.HandleDisburse | Professional-Loan-Management-Systems-recovery-branch/src/dashboard/ApplicationsList.jsx:79-94 | an unknown id sends nothing and fails with "Disbursement failed"; otherwise sends the first matching application's amount and succeeds or reports the server message or default |
| ApplicationsList.CardIdIsFound | Professional-Loan-Management-Systems-recovery-branch/src/dashboard/ApplicationsList.jsx:81-85 | a card's own id is always found, so the handler always sends a request for a card in the list |
| EmiDialog.RowFor | Professional-Loan-Management-Systems-recovery-branch/src/dashboard/EMIDialog.jsx:56-82 | "Paid" iff the status is PAID; a Pay Now button iff it is not, calling back with the EMI id and the dialog's application id |
| EmiDialog.Rows | Professional-Loan-Management-Systems-recovery-branch/src/dashboard/EMIDialog.jsx:55-84 | one row per instalment, in input order |
| EmiDialog.DialogView | Professional-Loan-Management-Systems-recovery-branch/src/dashboard/EMIDialog.jsx:28-90 | nothing when closed; spinner whenever loading; else the rows when non-empty; else "No EMI records found." |
| EmiDialog.PayButtonsMatchUnpaid | Professional-Loan-Management-Systems-recovery-branch/src/dashboard/EMIDialog.jsx:72-81 | there are as many Pay Now buttons as unpaid instalments |
| EmiDialog.PaidScheduleHasNoButtons | Professional-Loan-Management-Systems-recovery-branch/src/dashboard/EMIDialog.jsx:72 | a fully paid schedule shows no Pay Now button |
| EmiDialog.PayTargetsSelectedApplication | Professional-Loan-Management-Systems-recovery-branch/src/dashboard/EMIDialog.jsx:77 | in a consistent dashboard with the dialog open, every Pay Now button pays for the selected, present application |

## Left out

- HTTP: there are no calls, hosts, URLs or query-string encoding. A request is a `Loans.Request` value and its outcome is a `Reply` parameter. Which non-2xx statuses axios rejects is not modelled.
- Toasts are not modelled, except the text of the two ApplicationsList outcomes. The page reload after a successful status update or disbursement is only the `Reloaded` outcome.
- The session read from `localStorage` and `JSON.parse` are not modelled. The principal is a constructor parameter.
- Dates are not modelled. Each application carries its month key as a given string, so an unparseable date is simply the key `"NaN-NaN"`. Due-date formatting in the EMI table is not modelled.
- Floating point and locale formatting are not modelled (`Number(...)`, `toLocaleString`, `toFixed(2)`). Loan and EMI amounts are integers, and the `Number(app.loanAmount)` conversion in the purpose sums is taken as exact.
- Text.ToLower, Text.ToUpper: case mapping covers ASCII letters only. JavaScript maps every Unicode letter.
- Text.StrLess: `localeCompare` is modelled as code-point order. It agrees with the locale order on `YYYY-MM` keys made of digits and `-`, but not on arbitrary strings.
- Charts.PurposeData: the order of the bars is not stated. JavaScript lists integer-like keys first in `Object.keys`, and the model keeps first-insertion order. Purposes named like `Object.prototype` members (e.g. `constructor`) are treated as ordinary keys.
- Charts.StatusData: a status named like an `Object.prototype` member is not modelled specially.
- Dashboard.DashboardState.FetchEMIs: the code stores any truthy response body as is (`response.data || []`), including one that is not an array. The reply here carries an array or nothing (nothing becomes `[]`), so a non-array body is not represented.
- Async interleavings are not modelled: each handler is one atomic step. `emiLoading` is therefore never observed true between steps, and double clicks and overlapping fetches are not represented.
- Rendering libraries are not modelled: React hooks, MUI layout, animation and chart drawing. Theme colours are the enumeration `Loans.PaletteColor`.
- ApplicationsList's own search box and status select are not modelled. The dashboard passes them no value and no setter. That select also uses `""` for "all", whereas the dashboard uses `"ALL"`.
- The View Documents button is modelled only as present for administrators, with an empty handler (`OnClick` gives `NoEffect`).
- Card fields shown as plain text are not modelled: profession, credit score and the formatted amount.

## Findings

| source | as written | input that shows it | evidently intended | confidence | as-written member | corrected member |
|---|---|---|---|---|---|---|
| Professional-Loan-Management-Systems-recovery-branch/src/dashboard/ApplicationsList.jsx:172 | the loading branch renders `<Skeleton height={220} />`, but `Skeleton` is not imported (lines 2-32), so rendering it throws a ReferenceError | `loading` truthy, e.g. `BodyAsWritten(true, None, [], None)`; the dashboard itself never passes `loading` | three skeleton placeholders, with `Skeleton` imported from the component library | high; not executed | ApplicationsList.BodyAsWritten, ApplicationsList.LoadingListThrows | ApplicationsList.Body |
