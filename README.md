# Subscription expiry screens of the TFM admin console

This project models the logic under the subscription-expiry screens of the
admin console in Dafny, and proves properties of it. Five pieces are covered:

- the dashboard's table of expiring subscriptions: the days-remaining badge and the sliding five-page window;
- the expiry report: its badges, its normalisation of the report response, its pagination bar and the state its handlers keep;
- the subscription service: the days-to-status map, the count extraction, the success test with its default pagination, and the export payload;
- the report's filter panel: the cascading Country, State and City selection, the lookups behind the option lists, and the filter object and chips built on submit;
- the export dialog's column picker: a duplicate-free list of catalog columns.

Files, one module each:

| file | module | models |
|---|---|---|
| `common.dfy` | `Common` | optional fields, JavaScript truthiness, the response envelope, the filter object |
| `dashboard_table.dfy` | `DashboardTable` | `ExpiringSubscriptionsTable.js` (pure functions) |
| `subscription_service.dfy` | `SubscriptionService` | `subscription.service.js` with the HTTP calls removed (pure functions) |
| `expiry_report.dfy` | `ExpiryReport` | `SubscriptionExpiryReport.js`: pure badge and pagination functions, and the class `ReportView` for the state and handlers |
| `expiry_filters.dfy` | `ExpiryFilters` | `SubscriptionExpiryFilters.js`: pure lookups and filter building, and the class `FilterPanel` for the selection state |
| `export_modal.dfy` | `ExportColumns` | `ExportModal.js`: the class `ColumnPicker` over a `seq` of column keys, and the list algebra that specifies it |

JavaScript values are modelled as follows:

- Every field of a response or of a pagination object may be missing, so each one is an `Option`. Where the dashboard table does arithmetic on a missing field, the result is `NaN` (`DashboardTable.Num`).
- A `daysRemaining` value is `Undefined`, `Null` or `Known(n)`. The code treats `null` and `undefined` differently.
- A `success` field can hold a boolean, a number or a string. `Common.Truthy` gives its JavaScript truthiness.
- An awaited request either throws (`Threw`) or resolves to a response or to nothing (`Returned`).
- The table and pagination bar of the report show only when nothing is loading, there is no error and there are rows. `ReportView` keeps the loading flag for this.
- The pieces of `fetchReport` that run before and after the `await` are two methods: `BeginFetch` and `ReceiveFetch`.

Two behaviours of the code a reader may not expect:

- Toggling a column twice restores the selection only when the column was not selected to begin with. When it was selected, the second toggle appends it at the end, so the same keys come back in a different order. Both cases are proved: `ToggleTwiceAbsent` and `ToggleTwicePresent`.
- In the report, a `null` days value is not covered by the 'N/A' test at line 303. It reaches the badge chain, where `null < 0` is false and `null <= 7` is true, so it shows as a danger badge with an empty number.

## Model

| member | source | states |
|---|---|---|
| DashboardTable.DaysBadge | src/components/dashboard/ExpiringSubscriptionsTable.js:13-31 | a missing or null value gives exactly the secondary "No Data" badge; for a number, each colour holds exactly on its range (at most 7 danger, 8-15 warning, 16-30 info, above 30 success); the label is "expired n days ago" exactly for negatives (with n = \|d\|), "Expires Today" exactly for 0, and "d days" exactly for positives |
| DashboardTable.WindowStart | src/components/dashboard/ExpiringSubscriptionsTable.js:111-121 | the first page button is at least 1, the last one is at most `pages`, and a current page that exists falls inside the window |
| DashboardTable.PageWindow | src/components/dashboard/ExpiringSubscriptionsTable.js:111-121 | the window has `min(pages, 5)` buttons; they are consecutive ascending pages, all between 1 and `pages`; they contain the current page whenever it exists |
| DashboardTable.PageWindowBranches | src/components/dashboard/ExpiringSubscriptionsTable.js:113-121 | the window has three shapes: 1..pages for at most 5 pages; 1..5 near the start; pages-4..pages near the end; otherwise page-2..page+2 |
| DashboardTable.ShowingRange | src/components/dashboard/ExpiringSubscriptionsTable.js:95-98 | "Showing X to Y of Z" has 0 ≤ X ≤ Y ≤ Z, with X = 0 exactly when there are no rows; on an existing page, X is the row after the previous pages and the page holds min(limit, rows left) rows; past the end, X = Y = Z |
| DashboardTable.Showing | src/components/dashboard/ExpiringSubscriptionsTable.js:95-98 | with page, limit and total present and page and limit at least 1, the text shows the range of `ShowingRange`; as soon as one of them is missing both numbers are NaN; the total is shown as given |
| DashboardTable.WindowOf | src/components/dashboard/ExpiringSubscriptionsTable.js:111-121 | `min(pages, 5)` buttons; with a current page they are the numbers of `PageWindow`; without one they are 1..pages for at most 5 pages and NaN otherwise, because a missing page fails every comparison |
| DashboardTable.TablePager | src/components/dashboard/ExpiringSubscriptionsTable.js:33-141 | the controls exist exactly when nothing is loading, there is no error, there are rows, and the pagination object has a `pages` field above 1 (a missing `pages` hides them); Previous is disabled exactly on page 1 and Next exactly on page `pages`, so a missing page disables neither; the range and window are `Showing` and `WindowOf` |
| DashboardTable.RequestablePagesExist | src/components/dashboard/ExpiringSubscriptionsTable.js:102-141 | when the current page is present and exists, every page a button can ask for (a window button, or an enabled Previous or Next) exists |
| SubscriptionService.StatusesFor | src/core/services/subscription.service.js:80-86 | 7 days asks for EXPIRED and EXPIRING_7, 15 days for EXPIRING_15, and any other period for EXPIRING_30 |
| SubscriptionService.StatusesForDisjoint | src/core/services/subscription.service.js:80-84 | two different periods among 7, 15 and 30 never ask for a common status (any other period falls back to the statuses of 30) |
| SubscriptionService.StatQueries | src/core/services/subscription.service.js:49-53 | three queries, each for page 1 with limit 1, with the status lists of 7, 15 and 30 days, and pairwise disjoint |
| SubscriptionService.CountOf | src/core/services/subscription.service.js:58-60 | a count is `totalCount` when that is non-zero, else `total`, else 0; it is non-zero only when a pagination object is present |
| SubscriptionService.ExpiryStatsOf | src/core/services/subscription.service.js:45-67 | the statistics fail exactly when one of the three requests throws; otherwise each count comes from its own response |
| SubscriptionService.ExpiringSoonQuery | src/core/services/subscription.service.js:77-92 | the widget's query echoes the page and the limit, with the statuses of the period |
| SubscriptionService.DefaultPagination | src/core/services/subscription.service.js:98-103 | the fallback pagination has no rows and no pages, and echoes the page and limit that were asked for |
| SubscriptionService.ExpiringSoonResult | src/core/services/subscription.service.js:94-107 | success holds exactly when there is a response whose meta code is 200 or whose success flag is truthy; a failure is `{false, [], null}`; on success the rows default to empty and a missing pagination becomes the default one |
| SubscriptionService.SuccessHasPagination | src/core/services/subscription.service.js:94-107 | a result carries a pagination object exactly when it is a success |
| SubscriptionService.ExportPayloadOf | src/core/services/subscription.service.js:27-31 | the export body holds the filter and the columns unchanged |
| ExpiryReport.DaysBadge | src/components/reports/SubscriptionExpiryReport.js:161-173 | five colours, each exactly on its range: below 0 dark, 0-7 danger, 8-15 warning, 16-30 info, above 30 success; the caption is "Expired" exactly for negatives, and "d days" otherwise |
| ExpiryReport.DaysCell | src/components/reports/SubscriptionExpiryReport.js:303 | 'N/A' exactly when the field is undefined; null gives a danger badge with no number; a number gives its badge |
| ExpiryReport.StatusBadge | src/components/reports/SubscriptionExpiryReport.js:176-184 | the four status codes have their fixed colours and texts; any other status is shown as itself on a secondary badge |
| ExpiryReport.DaysBadgeMatchesStatus | src/components/reports/SubscriptionExpiryReport.js:161-184 | a row's days badge has the colour of the status whose range holds its day count; the rows with no status are exactly the green ones |
| ExpiryReport.StatusOptionsAgree | src/components/reports/SubscriptionExpiryReport.js:176-184 | each option of the status filter carries the colour of the status badge for its code |
| ExpiryReport.FallbackMessage | src/components/reports/SubscriptionExpiryReport.js:73 | the error is `meta.message` if that is non-empty, else `message` if that is non-empty, else "Unexpected response format"; it is never empty |
| ExpiryReport.Normalise | src/components/reports/SubscriptionExpiryReport.js:39-83 | a response loads exactly when it has meta code 200, success `true` or `'true'`, or data; loading gives the rows (default empty), the pagination (default none) and the summary; a throw, a missing response and an unrecognised one give their three error messages |
| ExpiryReport.NormaliseVersusService | src/components/reports/SubscriptionExpiryReport.js:39-69 | meta code 200 is a success in both the report and the service, a `true`/'true' flag is a success for the service too, and data alone loads the report |
| ExpiryReport.PageCount | src/components/reports/SubscriptionExpiryReport.js:328 | `ceil(total / limit)`: the pages hold all the rows, the last page is non-empty, and there are no pages exactly when there are no rows |
| ExpiryReport.ReportPager | src/components/reports/SubscriptionExpiryReport.js:310-348 | for the rows table, the bar is present exactly when `totalCount > limit`; it then has buttons 1..min(pages, 10), at least two of them; Previous is disabled exactly on page 1 and Next exactly on page `ceil(totalCount/limit)`; the range is `(page-1)*limit+1` to `min(page*limit, totalCount)` |
| ExpiryReport.ReportView.PagerBar | src/components/reports/SubscriptionExpiryReport.js:276-310 | the bar the page shows: present exactly when nothing is loading, there is no error, there are rows, and `ReportPager` gives a bar, and then it is that bar |
| ExpiryReport.ReportView.ExportEnabled | src/components/reports/SubscriptionExpiryReport.js:211 | the Export to Excel button is enabled exactly when nothing is loading and there are rows |
| ExpiryReport.ReportRangeBounds | src/components/reports/SubscriptionExpiryReport.js:313-315 | on an existing page, the range is a non-empty run of existing rows, no longer than a page; past the last page it is empty |
| ExpiryReport.SelectorFor | src/components/reports/SubscriptionExpiryReport.js:227 | the selector shows 'all' exactly when the limit exceeds 1000, and the limit itself otherwise |
| ExpiryReport.AllRowsLimit | src/components/reports/SubscriptionExpiryReport.js:115 | 'all' means the total count when that is non-zero, else 10000; it is always at least 1 |
| ExpiryReport.AllRowsSelector | src/components/reports/SubscriptionExpiryReport.js:113-118 | after choosing 'all', the selector shows 'all' when there is no count, but shows a count of at most 1000 as a number |
| ExpiryReport.ReportView.constructor | src/components/reports/SubscriptionExpiryReport.js:13-21 | no rows, not loading, no error, no filters, page 1, limit 10, no pagination and no summary |
| ExpiryReport.ReportView.BeginFetch | src/components/reports/SubscriptionExpiryReport.js:25-34 | loading starts and the error is cleared, so neither the bar nor the Export to Excel button (line 211) is available; the posted body is the filters with the page and limit |
| ExpiryReport.ReportView.ReceiveFetch | src/components/reports/SubscriptionExpiryReport.js:39-86 | loading ends; a loaded outcome replaces rows and pagination, and replaces the summary only when the response has one; a failure sets the error, keeps rows, pagination and summary, and hides the bar |
| ExpiryReport.ReportView.HandleFilterChange | src/components/reports/SubscriptionExpiryReport.js:90-94 | stores the filters, returns to page 1, starts loading and requests page 1 with the current limit |
| ExpiryReport.ReportView.HandleClearFilters | src/components/reports/SubscriptionExpiryReport.js:97-102 | empties the filters, the rows and the summary and returns to page 1, changing nothing else; with no rows the bar and the Export to Excel button are gone although the pagination is kept |
| ExpiryReport.ReportView.HandlePageChange | src/components/reports/SubscriptionExpiryReport.js:105-108 | moves to the page, starts loading and requests it with the current filters and limit |
| ExpiryReport.ReportView.HandleLimitChange | src/components/reports/SubscriptionExpiryReport.js:111-125 | 'all' sets the limit to `AllRowsLimit` of the pagination and a number sets it to that number; either way the view returns to page 1, starts loading and requests page 1 with the new limit |
| ExpiryReport.ReportView.HandleExport | src/components/reports/SubscriptionExpiryReport.js:128-134 | the export body holds the current filters and the chosen columns |
| ExpiryFilters.Values | src/components/reports/SubscriptionExpiryFilters.js:127 | the ids of a selection, one per option, in order |
| ExpiryFilters.SearchOf | src/components/reports/SubscriptionExpiryFilters.js:46-48 | the search text is sent exactly when it is non-empty |
| ExpiryFilters.StatesQuery | src/components/reports/SubscriptionExpiryFilters.js:83-90 | there is no state query exactly when no country is selected; otherwise the query is constrained to the selected countries |
| ExpiryFilters.CitiesQuery | src/components/reports/SubscriptionExpiryFilters.js:104-111 | there is no city query exactly when no state is selected; otherwise the query is constrained to the selected states |
| ExpiryFilters.ToChoices | src/components/reports/SubscriptionExpiryFilters.js:74-77 | each record becomes the option `{value: id, label: name}`, in order |
| ExpiryFilters.PlanChoices | src/components/reports/SubscriptionExpiryFilters.js:54-59 | an option is offered exactly when some plan whose plan id is not PLAN0 has it as id and name |
| ExpiryFilters.PlanChoicesAppend | src/components/reports/SubscriptionExpiryFilters.js:54-59 | the plan filter keeps the order of the plans: it distributes over concatenation |
| ExpiryFilters.LoadPlans | src/components/reports/SubscriptionExpiryFilters.js:44-62 | always queries active plans (status 10), with the search text only when it is non-empty; no options unless the response has code 200, otherwise the non-free plans |
| ExpiryFilters.LoadCountries | src/components/reports/SubscriptionExpiryFilters.js:65-80 | always an unconstrained query, with the search text only when it is non-empty; no options unless the response has code 200, otherwise every record as `{value: id, label: name}`, in order |
| ExpiryFilters.LoadStates | src/components/reports/SubscriptionExpiryFilters.js:83-101 | with no country selected there is no query and no option; otherwise the query is the state query, and the options are the response's records when its code is 200 |
| ExpiryFilters.LoadCities | src/components/reports/SubscriptionExpiryFilters.js:104-122 | with no state selected there is no query and no option; otherwise the query is the city query, and the options are the response's records when its code is 200 |
| ExpiryFilters.RawFiltersKeys | src/components/reports/SubscriptionExpiryFilters.js:167-176 | the object built first has all eight keys |
| ExpiryFilters.SubmittedFiltersShape | src/components/reports/SubscriptionExpiryFilters.js:166-183 | the submitted object holds no undefined value and no empty array; each of the eight keys is present exactly when its input is set, and then holds the text or the selected ids |
| ExpiryFilters.ActiveChipsPushed | src/components/reports/SubscriptionExpiryFilters.js:186-192 | the chips are the shown ones among the six possible chips, pushed in order |
| ExpiryFilters.ActiveChipsOrdered | src/components/reports/SubscriptionExpiryFilters.js:186-192 | the chips come in the order From Date, To Date, Status, Plans, Country, Search, each at most once, and there is no other kind (so no State or City chip) |
| ExpiryFilters.ActiveChipsPresent | src/components/reports/SubscriptionExpiryFilters.js:186-192 | each chip, with its value or its "n selected" count, appears exactly when its input is set |
| ExpiryFilters.ChipLabelsDistinct | src/components/reports/SubscriptionExpiryFilters.js:187-192 | the six chip labels are pairwise different, so a chip's label names its input |
| ExpiryFilters.FilterPanel.constructor | src/components/reports/SubscriptionExpiryFilters.js:22-31 | every input, id list and chip list starts empty |
| ExpiryFilters.FilterPanel.HandleCountryChange | src/components/reports/SubscriptionExpiryFilters.js:125-140 | the countries and their ids become the new selection, which may be empty; State, state ids and City are cleared; the id lists keep mirroring the selections |
| ExpiryFilters.FilterPanel.HandleStateChange | src/components/reports/SubscriptionExpiryFilters.js:143-154 | the states and their ids become the new selection and City is cleared; nothing else changes |
| ExpiryFilters.FilterPanel.HandleCityChange | src/components/reports/SubscriptionExpiryFilters.js:157-163 | only the city selection changes |
| ExpiryFilters.FilterPanel.SetFromDate | src/components/reports/SubscriptionExpiryFilters.js:226 | only the From date changes |
| ExpiryFilters.FilterPanel.SetToDate | src/components/reports/SubscriptionExpiryFilters.js:238-241 | only the To date changes; the input is enabled only once a From date is set |
| ExpiryFilters.FilterPanel.SetStatus | src/components/reports/SubscriptionExpiryFilters.js:254 | only the status selection changes |
| ExpiryFilters.FilterPanel.SetPlans | src/components/reports/SubscriptionExpiryFilters.js:271 | only the plan selection changes |
| ExpiryFilters.FilterPanel.SetSearch | src/components/reports/SubscriptionExpiryFilters.js:340 | only the search text changes |
| ExpiryFilters.FilterPanel.BuildFilters | src/components/reports/SubscriptionExpiryFilters.js:166-183 | the key-by-key deletion loop yields exactly the pruned filter object of the current inputs |
| ExpiryFilters.FilterPanel.OnSubmit | src/components/reports/SubscriptionExpiryFilters.js:166-194 | the submitted filter object and the chips are those of the current inputs |
| ExpiryFilters.FilterPanel.HandleClearFilters | src/components/reports/SubscriptionExpiryFilters.js:199-209 | every input, id list and chip list is emptied |
| ExportColumns.Keys | src/components/reports/ExportModal.js:73 | the keys of the columns, one per column, in order |
| ExportColumns.CatalogKeys | src/components/reports/ExportModal.js:18-54 | flattening the three groups gives the 14 catalog keys in group order |
| ExportColumns.DefaultColumnsShape | src/components/reports/ExportModal.js:6-15 | the initial selection is duplicate-free and made of catalog keys |
| ExportColumns.CatalogShape | src/components/reports/ExportModal.js:6-54 | the catalog lists 14 distinct keys in group order; the initial selection is eight distinct catalog keys |
| ExportColumns.AllKeysComplete | src/components/reports/ExportModal.js:18-54 | every column key is in the catalog |
| ExportColumns.KeyNames | src/components/reports/ExportModal.js:90-92 | the key strings handed to the export, one per key, in order |
| ExportColumns.Without | src/components/reports/ExportModal.js:58 | removing a key keeps exactly the other keys |
| ExportColumns.WithoutAppend | src/components/reports/ExportModal.js:58 | removal works element by element, so the order of the remaining keys is kept |
| ExportColumns.WithoutNoDup | src/components/reports/ExportModal.js:58 | removal keeps a selection free of duplicates |
| ExportColumns.Minus | src/components/reports/ExportModal.js:78 | removing a group keeps exactly the keys outside the group |
| ExportColumns.MinusAppend | src/components/reports/ExportModal.js:78 | removing a group distributes over concatenation, so the kept keys stay in their order |
| ExportColumns.MinusNoDup | src/components/reports/ExportModal.js:78 | removing a group keeps a selection free of duplicates |
| ExportColumns.AddNew | src/components/reports/ExportModal.js:81 | inserting keys into an insertion-ordered set keeps the set as a prefix, holds exactly the old and the new keys, and adds no duplicate |
| ExportColumns.AddNewSplit | src/components/reports/ExportModal.js:81 | inserting keys into an ordered set `p + q` keeps `p` in front and inserts into `q` the keys not in `p`, in their order |
| ExportColumns.UnionExtends | src/components/reports/ExportModal.js:81 | on a duplicate-free selection, the `Set` union is the selection followed by the distinct group keys not yet selected, in group order; it holds exactly the selected and the group keys, and has no duplicate |
| ExportColumns.ToggleFlips | src/components/reports/ExportModal.js:56-62 | a toggle flips the membership of its key and of no other; an absent key is appended at the end |
| ExportColumns.ToggleTwiceAbsent | src/components/reports/ExportModal.js:56-62 | toggling an unselected key twice restores the selection |
| ExportColumns.ToggleTwicePresent | src/components/reports/ExportModal.js:56-62 | toggling a selected key twice removes it and appends it at the end |
| ExportColumns.ToggleNoDup | src/components/reports/ExportModal.js:56-62 | a toggle keeps the selection free of duplicates |
| ExportColumns.GroupToggleEffect | src/components/reports/ExportModal.js:72-87 | a group that was not fully selected is fully selected afterwards, with the old selection kept as a prefix; a fully selected group loses exactly its keys and nothing else |
| ExportColumns.GroupSelectAppends | src/components/reports/ExportModal.js:79-82 | selecting a group that is not fully selected appends exactly the group keys not yet selected, in group order, behind the unchanged selection |
| ExportColumns.GroupKeysDistinct | src/components/reports/ExportModal.js:18-54 | the keys of each of the three groups are distinct, so `GroupSelectAppends` applies to every group button of the dialog |
| ExportColumns.GroupDeselectKeepsOrder | src/components/reports/ExportModal.js:76-78 | deselecting a fully selected group removes its keys from every part of the selection, keeping the other keys in their order |
| ExportColumns.GroupToggleNoDup | src/components/reports/ExportModal.js:72-84 | a group toggle keeps the selection free of duplicates |
| ExportColumns.SelectionBound | src/components/reports/ExportModal.js:156 | a duplicate-free selection has at most 14 keys |
| ExportColumns.ColumnPicker.constructor | src/components/reports/ExportModal.js:6-15 | the selection starts as the eight default keys, duplicate-free |
| ExportColumns.ColumnPicker.Toggle | src/components/reports/ExportModal.js:56-62 | the selection becomes the toggled one and stays duplicate-free |
| ExportColumns.ColumnPicker.SelectAll | src/components/reports/ExportModal.js:64-66 | the selection becomes the 14 catalog keys in group order |
| ExportColumns.ColumnPicker.DeselectAll | src/components/reports/ExportModal.js:68-70 | the selection becomes empty |
| ExportColumns.ColumnPicker.SelectGroup | src/components/reports/ExportModal.js:72-84 | the selection becomes the group-toggled one and stays duplicate-free |
| ExportColumns.ColumnPicker.IsGroupFullySelected | src/components/reports/ExportModal.js:86-88 | holds exactly when every column of the group is selected |
| ExportColumns.ColumnPicker.SelectedCount | src/components/reports/ExportModal.js:156 | the "n / 14 selected" count is the length of the selection and at most 14 |
| ExportColumns.ColumnPicker.Export | src/components/reports/ExportModal.js:90-92 | exporting is possible exactly when some column is selected and no export is running; it hands over the selected key strings unchanged |

## Left out

- Rendering: JSX, Bootstrap components, CSS classes, icons, toasts and console logging.
- The dashboard widget's and the panel's loading flags, the report's exporting flag and the modal's visibility. The report's own loading flag is modelled. Races between in-flight fetches are concurrency, and the code has no ordering logic for them.
- HTTP calls, `async`/`await` and `Promise.all`. A response is an input value of type `Fetch`. The axios layer's own error handling (`utils.showErrMsg`) is not part of this model. Whatever it hands back is covered by `Fetch`: nothing is `Returned(None)`, and a truthy value that is not a response is `Returned(Some(r))` with every field absent, which ends in "Unexpected response format".
- The Blob download in `handleExport` (src/components/reports/SubscriptionExpiryReport.js:136-151) and `moment` date formatting: browser and library calls.
- Computing a days-remaining value from dates. The backend supplies it as data.
- The days-remaining and status badges render a number or a status as text. Only the colour and the kind of caption are modelled, not the rendered string, and not the warning badge's dark text colour.
- `ExpiringSubscriptionsWidget.js`, `ExpirySummaryCards.js`, `ExpirySummaryStats.js` and the reports page: fetch orchestration, rendering with `|| 0` defaults, and tab switching.
- `parseInt` of the rows-per-page value. A numeric choice is an integer of at least 1.
- The default arguments of `getExpiringSoon`, because its one caller passes all three.
- The react-select and react-hook-form internals. A selection is a sequence of `{value, label}` options, and the search field is part of the panel's state.
- A lookup response without a `meta` field, which makes the JavaScript throw a TypeError. A lookup response is either absent or has a code.
- JavaScript values outside the modelled types, such as NaN in a field, strings in numeric fields, or non-array data.
- ExpiryReport.StatusBadge: a status string that names an inherited `Object` member (`toString`, `constructor`, `__proto__` and the like) is treated as an unknown code. In JavaScript the `statusMap[status]` lookup finds that member, so the secondary fallback is skipped and the badge gets no colour or text. Backend status codes never take these names.
- ExpiryFilters.FilterPanel.HandleStateChange: requires a selected country, because the State input is disabled without one (src/components/reports/SubscriptionExpiryFilters.js:307).
- ExpiryFilters.FilterPanel.HandleCityChange: requires a selected state, because the City input is disabled without one (src/components/reports/SubscriptionExpiryFilters.js:326).
- ExpiryFilters.FilterPanel.SetToDate: requires a From date, because the To Date input is disabled without one (src/components/reports/SubscriptionExpiryFilters.js:241).
- ExportColumns.ColumnPicker: column keys are an enumeration of the 14 catalog keys, so "the selection stays inside the catalog" holds by construction and is not a separate invariant. Only the dialog's checkboxes and group buttons produce them.
- ExportColumns.ColumnPicker.Export: models the enabled Export button. JavaScript's `handleExport` itself does not check the selection.
