# CRM client core, modelled in Dafny

This project models the deterministic core of a React CRM client: the lead
caches in browser storage, the normalisation of webhook records into leads,
the lead dashboard's incremental refresh, filtering and paging, the analytics
page's charts, and the task board's due-date columns. The clock, the network
and browser storage are not part of the model; they enter as values:

- `now`, `fetchedAt` and the zone `offset` are integer epoch milliseconds;
- a webhook response is a `Result`: the parsed body, or the message of the error it throws;
- browser storage is a `Storage.Store` object holding one `map<string, Blob>`;
- a stored text that `JSON.parse` rejects is the blob `Unparsable`.

Modules, one per source file, plus shared building blocks:

| module | file | models |
|---|---|---|
| `Common` | common.dfy | `Option`, `Result`, counting and `filter`, `Math.round(k / max(n, 1) * 100)` on integers |
| `Text` | text.dfy | ASCII `toLowerCase`, `includes`, decimal printing, `padStart(2, '0')` |
| `Sorting` | sorting.dfy | `Array.prototype.sort` with a three-way comparator, as a stable insertion sort |
| `Leads` | leads.dfy | the `Lead` record, flag clearing, `new Map(leads.map(l => [l.id, l]))` |
| `Storage` | storage.dfy | `localStorage` and the freshness / identity test both lead caches share |
| `Crm` | crm.dfy | `src/utils/crm.ts` |
| `CrmCache` | crm_cache.dfy | `src/utils/crmCache.ts` |
| `Dashboard` | dashboard.dfy | `src/components/CRMDashboard.tsx` |
| `Analytics` | analytics.dfy | `src/components/CRM/CRMAnalyticsDashboard.tsx` |
| `Kanban` | kanban.dfy | `src/components/tasks-kanban.tsx` |

Code that changes state in place is imperative:

- the cache operations are methods on the `Store`;
- the dashboard's merge loop is a `for` loop with its counters;
- the analytics histograms are loops over a count dictionary;
- each page component is a class whose fields are its React state.

Every such method is proved against a pure function, and the properties are
lemmas about those functions.

Where the code and the design description of the system differ, the model
follows the code:

- **Freshness.** An entry exactly one lifetime old is still fresh, because expiry is `now - timestamp > TTL`.
- **List lifetimes.** The two list caches really do use different lifetimes: 5 minutes in `crm.ts` and 30 minutes in `crmCache.ts`. They also store the list under different field names (`data` and `leads`) under the same key, so each misses on the other's entry (`CrmCache.ServiceListMissesHere`, `CrmCache.ListMissesInService`).
- **Detail fan-out.** Only `crmCache.ts`'s save fills the per-lead details map.
- **Manual refresh.** `handleRefresh` has no cooldown gate. It still goes through `fetchLeads`, so a same-user list at most 5 minutes old is shown again without a request.
- **Analytics errors.** On a failed fetch the analytics page empties its list, while the dashboard keeps its own.

## Model

| member | source | states |
|---|---|---|
| Common.RoundedPercent | src/components/CRM/CRMAnalyticsDashboard.tsx:169-171 | the result is the nearest integer to 100·k/max(n,1) with halves rounded up; it is at most 100 when k ≤ max(n,1) and 0 when k = 0 |
| Common.FilterMembers | src/components/CRMDashboard.tsx:252-265 | `filter` keeps exactly the elements that satisfy the predicate |
| Common.FilterAppend | src/components/tasks-kanban.tsx:53-71 | filtering distributes over concatenation, so it keeps input order |
| Sorting.SortSorted | src/components/CRMDashboard.tsx:132-136 | with a total comparator the sorted list has every element no later than its successor |
| Sorting.SortPermutes | src/components/CRMDashboard.tsx:268-292 | sorting is a permutation of its input (multiset equality) |
| Sorting.SortMembers | src/components/CRMDashboard.tsx:268-292 | sorting keeps exactly the input's elements |
| Sorting.SortCount | src/components/CRMDashboard.tsx:132-136 | sorting keeps how many elements satisfy any predicate |
| Sorting.SortStable | src/components/CRMDashboard.tsx:268-292 | the sort is stable: elements that all tie with one another come out in their input order |
| Text.UpperFirst | src/components/CRM/CRMAnalyticsDashboard.tsx:128 | `charAt(0).toUpperCase() + slice(1)`: same length, first character upper-cased, the rest unchanged |
| Text.DecimalRoundTrip | src/utils/crm.ts:120-123 | the decimal text of a count reads back as that count |
| Text.PadTwo | src/components/tasks-kanban.tsx:199 | `String(n).padStart(2, '0')` for n < 100 is two digits whose value is n |
| Leads.ClearAll | src/components/CRMDashboard.tsx:139-143 | every lead is copied with both highlight flags false, at its own position |
| Leads.IndexById | src/components/CRMDashboard.tsx:102 | the map's keys are exactly the list's ids, and each id maps to a lead of the list that carries it |
| Leads.IndexByIdLast | src/components/CRMDashboard.tsx:102 | with repeated ids, `new Map` keeps the last lead for each id |
| Leads.IndexByIdDistinct | src/components/CRMDashboard.tsx:102 | with distinct ids every lead is the one its id maps to |
| Storage.CachedList | src/utils/crm.ts:166-185 | a read hits exactly when the entry is a list entry, is not older than the lifetime, was written for the same employee id and email, and carries the module's list field |
| Storage.AfterListRead | src/utils/crm.ts:173-177 | a read removes the entry exactly when it is expired or was written for another identity, and changes nothing else |
| Crm.MapApiStatus | src/utils/crm.ts:95-107 | the seven labels map to their lower-case stage, 'Client' to 'won', any other label that is not an `Object.prototype` member name to 'new'; within the model the result is always a lead status |
| Crm.TimeAgoRanges | src/utils/crm.ts:110-127 | below a minute 'Just now'; then whole minutes, whole hours; one to two days 'Yesterday'; otherwise whole days, all by floor division |
| Crm.TimeAgoJustNow | src/utils/crm.ts:119 | 'Just now' is given exactly for elapsed times below one minute, negative ones included |
| Crm.TimeAgoYesterday | src/utils/crm.ts:122 | 'Yesterday' is given exactly from one full day up to two days |
| Crm.MapApiLeadToLead | src/utils/crm.ts:130-163 | id is the record name, value the revenue or 0, status the mapped status; every text field is non-empty, being the first non-empty candidate of its fallback chain; no highlight flag is set |
| Crm.MapAll | src/utils/crm.ts:231 | one mapped lead per record, in order, none flagged |
| Crm.MapAllIds | src/utils/crm.ts:231 | the mapped list's ids are exactly the records' names |
| Crm.GetCachedLeads | src/utils/crm.ts:166-185 | returns what `Storage.CachedList` gives for the `data` field and a 5-minute lifetime, and leaves the storage as `Storage.AfterListRead` gives it |
| Crm.SaveLeadsToCache | src/utils/crm.ts:188-200 | the storage afterwards holds the list under `data` with the caller's identity and the save time, and nothing else changes |
| Crm.FetchLeads | src/utils/crm.ts:202-241 | a cache hit is returned with the storage unchanged and no use of the response; on a miss the mapped response is returned and saved under the caller's identity; a failed request returns its error after the read's eviction |
| Crm.FindById | src/utils/crm.ts:247 | finds a lead exactly when the id occurs, and then the first lead with that id |
| Crm.GetLeadById | src/utils/crm.ts:244-252 | the first lead with the id in the cached or fetched list; none when it is absent or the fetch fails; the storage is left as `fetchLeads` leaves it: unchanged on a hit, the saved list after a successful fetch, the read's eviction after a failed one |
| Crm.RefreshLeads | src/utils/crm.ts:255-259 | always uses the response: its mapped list is returned and saved; on failure the entry is gone |
| Crm.WithStatus | src/utils/crm.ts:267-271 | same length; each lead with the id gets the new status and 'Just now', every other lead is unchanged |
| Crm.WithStatusIdempotent | src/utils/crm.ts:267-271 | the update keeps the list's ids, and a second identical update changes nothing |
| Crm.UpdateLeadStatus | src/utils/crm.ts:262-277 | rewrites a cached list with the updated leads under the stored identity and a new timestamp; nothing changes without a cached list |
| Crm.StatusUpdateRevives | src/utils/crm.ts:272 | after an update, the stored identity reads the updated list at that time, even if the old entry had expired |
| Crm.ClearCache | src/utils/crm.ts:299-301 | removes the list key and nothing else |
| Crm.GetCacheInfo | src/utils/crm.ts:280-296 | without a readable entry: no cache, expired, no timestamp; with one: its timestamp, and expired exactly when older than 5 minutes |
| Crm.CacheInfoAgreesWithRead | src/utils/crm.ts:280-296 | the entry is reported present and fresh exactly when its own identity's read would hit |
| Crm.SavedThenCached | src/utils/crm.ts:166-200 | a saved list is returned to the same employee id and email up to 5 minutes later, boundary included, and to no one else |
| Crm.MissEvicts | src/utils/crm.ts:173-177 | a miss on a list entry, caused by age or identity, removes the entry |
| Crm.CachedIsScoped | src/utils/crm.ts:173-183 | whatever a read returns was stored for exactly that identity no more than 5 minutes earlier |
| CrmCache.DetailsOf | src/utils/crmCache.ts:55 | a missing details map is read as empty |
| CrmCache.Upserted | src/utils/crmCache.ts:57-62 | the keys are the old ids plus the list's ids; each listed id holds the last lead with that id and the shared timestamp; other ids keep their entries |
| CrmCache.FanOut | src/utils/crmCache.ts:57-62 | the `forEach` upsert loop computes `CrmCache.Upserted` |
| CrmCache.GetCachedLeads | src/utils/crmCache.ts:22-41 | returns what `Storage.CachedList` gives for the `leads` field and a 30-minute lifetime; evicts on a miss by age or identity |
| CrmCache.SaveLeadsToCache | src/utils/crmCache.ts:43-67 | writes the list entry, then the upserted details map; when the stored details do not parse, only the list entry is written |
| CrmCache.GetCachedLeadDetails | src/utils/crmCache.ts:69-91 | the lead while its own entry is at most 30 minutes old; an expired entry is deleted and the map written back; no write when the id is absent |
| CrmCache.SaveLeadDetailsToCache | src/utils/crmCache.ts:93-107 | binds the id to the lead and the save time, keeping the other ids |
| CrmCache.ClearAllCache | src/utils/crmCache.ts:109-112 | removes both keys and nothing else |
| CrmCache.ClearLeadDetailsCache | src/utils/crmCache.ts:114-116 | removes only the details key |
| CrmCache.GetCacheInfo | src/utils/crmCache.ts:118-143 | presence of each key, the stored list's length, the number of detail ids, the list's timestamp; anything unreadable gives the all-empty summary |
| CrmCache.SavedLeadsThenCached | src/utils/crmCache.ts:22-51 | a saved list is read back by the same identity for 30 minutes, boundary included, and by no one else |
| CrmCache.SavedLeadsThenDetail | src/utils/crmCache.ts:43-86 | after a list save each lead (the last one of a repeated id) is returned by its id for 30 minutes |
| CrmCache.SavedLeadsKeepsOtherDetails | src/utils/crmCache.ts:57-63 | a list save leaves the details of ids not in the list as they were |
| CrmCache.SavedLeadsWithBrokenDetails | src/utils/crmCache.ts:51-66 | with unparsable details, the list is still saved and readable and the details blob is untouched |
| CrmCache.DetailSavedThenCached | src/utils/crmCache.ts:93-107 | a saved detail is read back for 30 minutes, boundary included |
| CrmCache.ExpiredDetailEvictsOnlyItself | src/utils/crmCache.ts:79-83 | reading one id never changes what any other id reads at any later time, nor what the same id reads next; every other storage key is untouched, and the details map keeps every other id's entry |
| CrmCache.InfoAfterSave | src/utils/crmCache.ts:118-131 | after a list save the summary counts the list and the union of old and new detail ids, with the save time |
| CrmCache.ServiceListMissesHere | src/utils/crmCache.ts:5 | a list saved by the lead service, under `data`, is never returned here, and this module reports no cache for it |
| CrmCache.ListMissesInService | src/utils/crm.ts:85 | a list saved here, under `leads`, is never returned by the lead service |
| Dashboard.ValueText | src/components/CRMDashboard.tsx:190 | a value prints as the empty string exactly when it is 0, since 0 is falsy |
| Dashboard.JoinBarInjective | src/components/CRMDashboard.tsx:190 | joining with '\|' is one-to-one on equally long lists of parts without '\|' |
| Dashboard.FingerprintExact | src/components/CRMDashboard.tsx:188-191 | when no field contains '\|', two leads share a fingerprint exactly when the eight compared fields are equal |
| Dashboard.FingerprintCollision | src/components/CRMDashboard.tsx:188-191 | with a '\|' inside a field, two different leads can share a fingerprint |
| Dashboard.NewestFirstSorted | src/components/CRMDashboard.tsx:132-136 | the comparator is total and the sorted list has non-increasing creation times |
| Dashboard.MergeStep | src/components/CRMDashboard.tsx:107-128 | one turn of the loop adds one to the new or modified counter exactly when that lead is new or modified, and pushes the lead as the branches decide |
| Dashboard.ClassifiedUpToAt | src/components/CRMDashboard.tsx:105-129 | after n turns the loop has pushed one entry per incoming lead, in incoming order |
| Dashboard.ClassifiedAt | src/components/CRMDashboard.tsx:105-129 | entry j of the unsorted result is incoming lead j, classified |
| Dashboard.MergeIncremental | src/components/CRMDashboard.tsx:88-136 | the loop and its sort give the classified list newest first, one entry per incoming lead; the counters are the numbers of new and of modified incoming leads, summing to at most the incoming length |
| Dashboard.ClassifiedFlags | src/components/CRMDashboard.tsx:113-128 | for unflagged input: new exactly when the id is not in the snapshot, modified exactly when the fingerprints differ, never both; an unchanged lead is the snapshot's record with flags cleared |
| Dashboard.ClassifyKeepsId | src/components/CRMDashboard.tsx:107-128 | classification never changes a lead's id |
| Dashboard.MergedIds | src/components/CRMDashboard.tsx:105-138 | the merged list's ids are exactly the incoming ids; leads only in the snapshot are dropped |
| Dashboard.MergedCounts | src/components/CRMDashboard.tsx:145-146 | for unflagged input the counters equal the numbers of new-flagged and modified-flagged merged entries |
| Dashboard.Summary | src/components/CRMDashboard.tsx:226-246 | the total is the list length, the conversion rate is at most 100, and an empty list summarises to zeros |
| Dashboard.SummaryIgnoresLoading | src/components/CRMDashboard.tsx:227-236 | the loading guard changes nothing: an empty list already gives zeros |
| Dashboard.SummaryCardsBounded | src/components/CRMDashboard.tsx:239-244 | the new, contacted and qualified cards sum to at most the total; qualified is at most the converted count |
| Dashboard.LeadComparatorTotal | src/components/CRMDashboard.tsx:267-293 | the column comparator is total for every column and direction |
| Dashboard.FilteredMembers | src/components/CRMDashboard.tsx:252-265 | a lead survives exactly when it matches the search case-insensitively on name, company, email, phone, city or source, and has the chosen status unless 'all' |
| Dashboard.FilterAndSortMembers | src/components/CRMDashboard.tsx:249-297 | the effect's list holds exactly the surviving leads and is no longer than the list |
| Dashboard.FilterAndSortOrdered | src/components/CRMDashboard.tsx:267-293 | the effect's list is ordered by the chosen column and direction |
| Dashboard.NoFilterKeepsAll | src/components/CRMDashboard.tsx:249-297 | with no search and status 'all', the effect's list is a permutation of all leads |
| Dashboard.TotalPagesIsCeiling | src/components/CRMDashboard.tsx:300 | the page count is `Math.ceil(count / itemsPerPage)` |
| Dashboard.TotalPagesBounds | src/components/CRMDashboard.tsx:300 | the pages hold every lead, none is empty, and there are none exactly when there are no leads |
| Dashboard.PageSlice | src/components/CRMDashboard.tsx:301-303 | a page holds at most `itemsPerPage` leads, the consecutive ones starting at `(page - 1) * itemsPerPage` |
| Dashboard.PageOfIndex | src/components/CRMDashboard.tsx:300-303 | every filtered lead appears on the existing page its position falls in |
| Dashboard.ClampPage | src/components/CRMDashboard.tsx:346-348 | the page lands in [1, max(1, totalPages)], unchanged when already in range |
| Dashboard.PageWindow | src/components/CRMDashboard.tsx:413-423 | min(5, totalPages) consecutive page numbers within [1, totalPages], including the current page when it is in range |
| Dashboard.Dashboard.constructor | src/components/CRMDashboard.tsx:39-64 | the initial state: no leads, sorted by creation date descending, status 'all', page 1 of 25 rows |
| Dashboard.Dashboard.ApplyFilters | src/components/CRMDashboard.tsx:249-297 | the filtered list is the effect's result and the page goes back to 1 |
| Dashboard.Dashboard.FetchAllLeads | src/components/CRMDashboard.tsx:72-185 | auto-refresh over a non-empty snapshot shows the merged list with its counters and a flag-free snapshot; otherwise the fetched list newest first with zero counters; on failure the list is kept and the error shown; the filtered list stays the effect's result |
| Dashboard.Dashboard.ShowMerged | src/components/CRMDashboard.tsx:138-159 | the merged list, its flag-free copy as the snapshot, the counters, connected, page 1 |
| Dashboard.Dashboard.ReplaceWithFetched | src/components/CRMDashboard.tsx:160-172 | the fetched list newest first as both the list and the snapshot, counters 0, connected |
| Dashboard.Dashboard.HandleRefresh | src/components/CRMDashboard.tsx:336-339 | without credentials nothing changes; otherwise on success the fetched list newest first is list and snapshot, counters 0, no error, Connected, page 1, and an unflagged fetch stays unflagged; on failure list, snapshot, filtered list, page and counters stay, the error is 'Failed to fetch leads: ' plus the message, and the status is Disconnected |
| Dashboard.Dashboard.ClearHighlights | src/components/CRMDashboard.tsx:151-157 | every lead loses its highlight flags |
| Dashboard.Dashboard.SetSearchTerm | src/components/CRMDashboard.tsx:614 | a new term re-filters and goes to page 1; the same term changes nothing |
| Dashboard.Dashboard.SetStatusFilter | src/components/CRMDashboard.tsx:621 | a new status re-filters and goes to page 1; the same status changes nothing |
| Dashboard.Dashboard.HandleSort | src/components/CRMDashboard.tsx:305-317 | the same column flips direction, another column starts ascending; page 1 |
| Dashboard.Dashboard.GoToPage | src/components/CRMDashboard.tsx:346-348 | the clamped page, which keeps the page reachable |
| Dashboard.Dashboard.SetItemsPerPage | src/components/CRMDashboard.tsx:383-386 | the new page size and page 1 |
| Dashboard.Dashboard.CurrentLeads | src/components/CRMDashboard.tsx:301-303 | at most one page of rows, all from the filtered list |
| Analytics.StatusKeysDistinct | src/components/CRM/CRMAnalyticsDashboard.tsx:107-117 | the nine dictionary keys are pairwise different |
| Analytics.Tally | src/components/CRM/CRMAnalyticsDashboard.tsx:119-131 | one count per key, each the number of leads whose field equals that key exactly |
| Analytics.TallySum | src/components/CRM/CRMAnalyticsDashboard.tsx:119-125 | for distinct keys the counts sum to the number of leads whose field is one of the keys, at most the list length |
| Analytics.StatusDistribution | src/components/CRM/CRMAnalyticsDashboard.tsx:103-132 | nine entries in key order, each named by the key with its first letter upper-cased and counting the leads with exactly that status |
| Analytics.StatusSlicesTotal | src/components/CRM/CRMAnalyticsDashboard.tsx:119-125 | the slices sum to the number of leads with a listed status, at most the total |
| Analytics.UnlistedStatusUncounted | src/components/CRM/CRMAnalyticsDashboard.tsx:121 | a lead with an unlisted status makes the slices sum to less than the total |
| Analytics.MappedStatusesCharted | src/components/CRM/CRMAnalyticsDashboard.tsx:107-117 | of the statuses the lead service produces, exactly 'new', 'qualified' and 'won' are charted; 'contacted' is not, since the key is 'Contacted' |
| Analytics.SourcesMembers | src/components/CRM/CRMAnalyticsDashboard.tsx:139-144 | the chart's sources are exactly the non-empty sources of the list |
| Analytics.SourcesDistinct | src/components/CRM/CRMAnalyticsDashboard.tsx:146-150 | each source appears once |
| Analytics.SourceDistribution | src/components/CRM/CRMAnalyticsDashboard.tsx:135-151 | one entry per distinct non-empty source, in first-occurrence order, counting the leads with that source |
| Analytics.SourceSlicesTotal | src/components/CRM/CRMAnalyticsDashboard.tsx:139-144 | the source counts sum to the number of leads with a non-empty source |
| Analytics.Summarize | src/components/CRM/CRMAnalyticsDashboard.tsx:154-186 | the total is the list length; the conversion rate is the rounded percentage of qualified or won leads, at most 100 and 0 for an empty list |
| Analytics.SummaryMatchesChart | src/components/CRM/CRMAnalyticsDashboard.tsx:157-166 | the nine counters equal the nine chart slices in order, and sum to at most the total |
| Analytics.PerformanceChart | src/components/CRM/CRMAnalyticsDashboard.tsx:189-193 | one bar per slice, same name and count, with the rounded percentage of the total |
| Analytics.StatusBarsBounded | src/components/CRM/CRMAnalyticsDashboard.tsx:189-193 | on the status chart every percentage is at most 100 |
| Analytics.AnalyticsPage.constructor | src/components/CRM/CRMAnalyticsDashboard.tsx:9-18 | no leads, loading, connected, no error |
| Analytics.AnalyticsPage.FetchAllLeads | src/components/CRM/CRMAnalyticsDashboard.tsx:26-64 | the fetched list newest first and connected; on failure an empty list, the error and disconnected; both loading flags cleared |
| Analytics.AnalyticsPage.Mount | src/components/CRM/CRMAnalyticsDashboard.tsx:67-75 | loading is cleared; without credentials an empty list, with error, syncing flag and status unchanged; with credentials the fetch's settled state: on success the list newest first, no error, Connected; on failure an empty list, 'Failed to fetch leads: ' plus the message, Disconnected |
| Kanban.InitializeColumns | src/components/tasks-kanban.tsx:73-98 | four columns, ids today, tomorrow, this-week, later, titled Today, Tomorrow, This Week, Later |
| Kanban.ColumnMembers | src/components/tasks-kanban.tsx:53-71 | Today holds the tasks due on today's calendar day, Tomorrow those due on the next, This Week those due after now + 1 day up to now + 7 days, Later those due after that |
| Kanban.NextDay | src/components/tasks-kanban.tsx:49-50 | one day after an instant is the next calendar day |
| Kanban.OverdueInNoColumn | src/components/tasks-kanban.tsx:53-71 | a task due on an earlier day than today is in no column |
| Kanban.CurrentTaskShown | src/components/tasks-kanban.tsx:53-71 | a task due today or later is in some column |
| Kanban.ColumnsOverlap | src/components/tasks-kanban.tsx:58-66 | a task is in both Tomorrow and This Week exactly when it is due tomorrow at a later clock time than now; no other pair of columns shares a task |
| Kanban.ColumnsKeepOrder | src/components/tasks-kanban.tsx:53-71 | each column keeps the input order |
| Kanban.SortedByDue | src/components/tasks-kanban.tsx:142 | the fetched tasks come out with non-decreasing due dates |
| Kanban.FilterKeepsAscending | src/components/tasks-kanban.tsx:53-71 | a filter of a list sorted by due date is sorted by due date |
| Kanban.ColumnsAscending | src/components/tasks-kanban.tsx:142-145 | on a list sorted by due date every column is sorted by due date |
| Kanban.GetFilteredColumns | src/components/tasks-kanban.tsx:170-186 | as many columns as before, each keeping its id, title and color |
| Kanban.FilteredColumnMembers | src/components/tasks-kanban.tsx:175-184 | a task stays exactly when its column held it, it matches the search case-insensitively on title, first name or description, and it has the chosen priority unless 'all' |
| Kanban.ShortcutAgrees | src/components/tasks-kanban.tsx:171 | the shortcut for an empty search and 'all' gives what filtering would give |
| Kanban.FormatDueDateShape | src/components/tasks-kanban.tsx:199 | for a four-digit year the text is `YYYY-MM-DD HH:MM:00`: 19 characters, the separators at fixed places, each field two digits |
| Kanban.FormatDueDateRoundTrip | src/components/tasks-kanban.tsx:199 | every field of a valid time reads back from the text |
| Kanban.KanbanPage.constructor | src/components/tasks-kanban.tsx:32-40 | no tasks, no columns, loading, no error |
| Kanban.KanbanPage.FetchTasks | src/components/tasks-kanban.tsx:102-155 | without credentials the fixed error; a cached list is shown as is; a fetched list is shown sorted by due date; a failure keeps the board and shows the fixed message |
| Kanban.KanbanPage.RefreshTasks | src/components/tasks-kanban.tsx:158-167 | without credentials nothing changes; otherwise a fetch that skips the task cache, after which refreshing is cleared |

## Left out

- The network: every webhook call is a `Result` parameter, and the request bodies are not modelled.
- The clock: every reading of `Date.now()` / `new Date()` is a parameter. The model merges readings that the source takes separately into one instant: `initializeColumns` reads the clock twice (`today`, `tomorrow`); `crmCache.saveLeadsToCache` reads `Date.now()` for the list entry and again for the detail entries, which share one `now` here (`CrmCache.InfoAfterSave` and `CrmCache.SavedLeadsThenDetail` rely on that); in `fetchLeads`, `getTimeAgo` reads `new Date()` once per record and the save reads `Date.now()` again, and all of these are the one `fetchedAt`.
- Timers: the auto-refresh loops of both dashboards and the five-second highlight timeout are not modelled. The timeout's effect is `Dashboard.Dashboard.ClearHighlights`.
- The intermediate renders of `fetchAllLeads` (loading and syncing flags while the request is in flight): only the settled state is stated.
- `lastUpdated` and the chosen `refreshInterval` / `autoRefresh` settings: display-only state.
- Dates as text: `new Date(string)`, `toDateString`, daylight saving and locale formatting. A date is an epoch-millisecond integer, and a calendar day is `(t + offset) / DayMs` for a fixed zone offset.
- Crm.TimeAgoRanges: the 'Recently' fallback is not modelled, because an unparsable date never throws in `getTimeAgo` (it yields `NaN`, which falls through to the days branch); the model starts from an integer elapsed time.
- Text: case mapping is ASCII only; non-ASCII letters are left as they are. `Text.StrLess` compares Unicode code points, while JavaScript's `<` compares UTF-16 code units, so the orders differ on strings holding characters above U+FFFF.
- Floating point: `toFixed(1)` tooltip percentages are not modelled. `annual_revenue` is a JavaScript number, but `value` is an integer here, and so are the fingerprint text, the value sort and `totalValue` that use it.
- Common.RoundedPercent: every `Math.round` of a ratio is computed on exact integers, so it can differ from the source's floating-point result at exact halves: for 29 of 200 the source rounds 14.499999999999998 to 14, while the model gives 15.
- Storage.Store.SetItem: `localStorage.setItem` never fails in the model. In the source a throwing write (a full quota, say) is swallowed by the surrounding `catch` and leaves that key as it was. The save members below, and the round-trip lemmas that read their writes back (`Crm.SavedThenCached`, `Crm.StatusUpdateRevives`, `CrmCache.SavedLeadsThenCached`, `CrmCache.SavedLeadsThenDetail`, `CrmCache.DetailSavedThenCached`, `CrmCache.InfoAfterSave`), state the successful write only.
- Crm.SaveLeadsToCache: a failed write leaves the storage unchanged; the model always writes the entry.
- Crm.UpdateLeadStatus: a failed write leaves the old list entry in place; the model always rewrites it.
- CrmCache.SaveLeadsToCache: a failed first write leaves the storage unchanged, and a failed second write leaves the new list entry written with the details map as it was; the model always performs both writes.
- CrmCache.GetCachedLeadDetails: a failed write-back of the map leaves the expired entry stored; the model always removes it.
- CrmCache.SaveLeadDetailsToCache: a failed write leaves the details map unchanged; the model always binds the id.
- JSON: the text form of storage is not modelled. A stored value that does not parse, or a blob of the wrong kind at a key, is `Unparsable`, which every reader treats as the source's `catch` does.
- CrmCache.GetCacheInfo: `detailsTimestamp` (the maximum timestamp of the details map) is not modelled.
- Analytics.SourceDistribution: `Object.entries` lists integer-like keys (a source such as "42") before the others, and a source named like an `Object.prototype` member behaves differently; the model uses plain first-occurrence order.
- Crm.MapApiStatus: `statusMap` is a plain object, so a label such as "toString", "constructor", "valueOf", "hasOwnProperty" or "__proto__" reads an inherited member, which is truthy, instead of falling back to 'new'; the model maps such labels to 'new'.
- Analytics.StatusDistribution: `hasOwnProperty` on the nine-key dictionary is modelled as membership in the keys.
- Dashboard.Dashboard.HandleSort: the branch for a missing sort configuration is left out, because the state always holds one.
- Dashboard.TotalPages is recursive; `Dashboard.TotalPagesIsCeiling` ties it to `Math.ceil`.
- `handleClearCacheAndRefresh` on the analytics page is not modelled: it calls `clearAllCache` imported from `src/utils/crm.ts`, which defines no such export (only `src/utils/crmCache.ts` does), so its behaviour depends on how the bundle resolves it.
- The task cache (`getCachedAllTasks`, `saveAllTasksToCache`, `src/utils/tasksCache.ts`) is not part of this model: a cache hit is the `cached` parameter of `Kanban.KanbanPage.FetchTasks`, and the save is not modelled.
- Kanban.KanbanPage.RefreshTasks: the fetch after `localStorage.removeItem('crm_all_tasks_cache')` is modelled with no cached list, which assumes `getCachedAllTasks` reads that key; `src/utils/tasksCache.ts` is not part of this model, so the assumption is not checked.
- `createTask` and `updateTaskStatus` are network flows and are not modelled beyond the due-date text (`Kanban.FormatDueDate`).
- Kanban.FormatDueDateRoundTrip: stated for four-digit years only; other years print with another number of digits.
- The authentication context, the lead details page and the application's routes are not part of this model, nor is any presentation (JSX, charts, icons, colors, logging).
