# IBM Quantum job dashboard: client-side state, modelled in Dafny

The dashboard polls a list of quantum-computing jobs and shows them as cards.
Above the cards sit a statistics panel and a filter panel. This project models
the deterministic part of that client: how the job list and the user's filters
turn into what is shown.

- `quantum.dfy` (module `Quantum`): the job record, the seven-value status
  enumeration with its wire names, and the five-counter statistics record.
- `text.dfy` (module `Text`): ASCII lower-casing, `includes` as a recursive
  substring search, the code-unit-by-code-unit order of the default
  `Array.prototype.sort`, and insertion sort under that order.
- `dashboard.dfy` (module `Dashboard`): the filter record, the three-part filter
  predicate, the filtered view, the distinct sorted backend list, the main
  area's empty-state message, and the `QuantumDashboard` class. Its setters
  replace one field of the filter record each.
- `stats.dfy` (module `Stats`): the five counters over the unfiltered list and
  the five tiles in their fixed order.
- `filter_controls.dfy` (module `FilterControls`): the status and backend
  option lists, the active-filter badges, and the `JobFilters` class. This
  class holds the unsubmitted search text (`localSearch`). It changes the
  dashboard's filters only through the dashboard's setters.
- `page.dfy` (module `Page`): the loaded page as a whole, saying which list
  each panel receives: the statistics and the backend selector get the whole
  batch, the main area the filtered view.
- `card.dfy` (module `Card`): the status-to-variant and status-to-colour
  mappings, and which optional rows a job card shows.

Both status mappings are Dafny `match` functions over all seven statuses, so
they are total by construction.

## Model

| member | source | states |
|---|---|---|
| Text.ToLower | src/components/QuantumDashboard.tsx:37-38 | the result has the input's length, maps each character through ASCII lower-casing and contains no upper-case ASCII letter |
| Text.IncludesAtOffset | src/components/QuantumDashboard.tsx:37-38 | `includes` holds iff the needle equals the slice of the haystack at some offset (both directions) |
| Text.ToLowerIdempotent | src/components/QuantumDashboard.tsx:37-38 | lower-casing an already lower-cased string changes nothing |
| Text.LexLessTransitive | src/components/QuantumDashboard.tsx:49 | the default sort order is transitive |
| Text.LexLessTotal | src/components/QuantumDashboard.tsx:49 | any two different strings are ordered one way or the other |
| Text.StrictlyAscendingUnique | src/components/QuantumDashboard.tsx:49 | two strictly ascending lists with the same members are equal, so the sorted distinct list does not depend on the sorting algorithm |
| Text.SortStringsAscending | src/components/QuantumDashboard.tsx:49 | sorting a duplicate-free list yields a strictly ascending list |
| Text.SortStrings | src/components/QuantumDashboard.tsx:49 | sorting yields a permutation of its input (same multiset) |
| Dashboard.HasActiveFiltersIffSet | src/components/JobFilters.tsx:50 | "some filter is set" is false exactly for the all-empty filter record |
| Dashboard.FilteredJobsMembership | src/components/QuantumDashboard.tsx:35-43 | a job is in the filtered view iff it is in the job list and matches search, status and backend |
| Dashboard.FilteredJobsMultiplicity | src/components/QuantumDashboard.tsx:35-44 | the view keeps duplicates: a matching job occurs in it as often as in the list, a non-matching one never |
| Dashboard.FilteredJobsSubsequence | src/components/QuantumDashboard.tsx:35 | the filtered view is an order-preserving subsequence of the jobs, hence no longer than the list |
| Dashboard.FilteredJobsIdempotent | src/components/QuantumDashboard.tsx:34-45 | filtering the filtered view again with the same filters gives the same list |
| Dashboard.FilteredJobsUnconstrained | src/components/QuantumDashboard.tsx:36-43 | with search, status and backend all empty the filtered view equals the job list |
| Dashboard.StatusFilterExact | src/components/QuantumDashboard.tsx:40 | with a status filter set, every shown job has that status, and every job with that status that passes the other two filters is shown |
| Dashboard.UnmatchedStatusGivesEmpty | src/components/QuantumDashboard.tsx:40 | a status filter that no job carries yields the empty list |
| Dashboard.SearchSemantics | src/components/QuantumDashboard.tsx:36-38 | a non-empty search matches iff the lowered search occurs in the lowered id or in the lowered present name; without a name only the id counts |
| Dashboard.SearchIgnoresCase | src/components/QuantumDashboard.tsx:37-38 | a search and its lower-cased form match the same jobs |
| Dashboard.SearchFindsOwnId | src/components/QuantumDashboard.tsx:37 | searching for a job's own id always matches that job |
| Dashboard.BackendsOf | src/components/QuantumDashboard.tsx:49 | the mapped list has one entry per job and contains a name iff some job runs on that backend |
| Dashboard.Distinct | src/components/QuantumDashboard.tsx:49 | the de-duplicated list has no duplicates and the same members as its input |
| Dashboard.AvailableBackendsSpec | src/components/QuantumDashboard.tsx:48-50 | the backend list is strictly ascending and contains a name iff some job has that backend; it is a function of the jobs alone |
| Dashboard.AvailableBackendsUnique | src/components/QuantumDashboard.tsx:48-50 | any strictly ascending list with exactly the jobs' backends equals the backend list |
| Dashboard.OfferedBackendNeverEmpty | src/components/QuantumDashboard.tsx:41 | choosing any offered backend as the only filter shows at least one job |
| Dashboard.RenderMainSpec | src/components/QuantumDashboard.tsx:138-154 | the empty state appears iff no job matches; its text is "Try adjusting…" iff some filter is set; with no filter set it appears only for an empty job list; otherwise the cards are the filtered view |
| Dashboard.ScenarioSearchById | src/components/QuantumDashboard.tsx:34-45 | searching "a1" among jobs a1 and b2 shows job a1 only |
| Dashboard.ScenarioUnmatchedStatus | src/components/QuantumDashboard.tsx:40 | filtering those two jobs by ERROR gives an empty view |
| Dashboard.ScenarioBackendList | src/components/QuantumDashboard.tsx:48-50 | two jobs on ibm_brisbane and one on ibm_kyoto give the list ibm_brisbane, ibm_kyoto |
| Dashboard.QuantumDashboard.constructor | src/components/QuantumDashboard.tsx:14-21 | the dashboard starts with an empty job list and all three filters empty |
| Dashboard.QuantumDashboard.ReceiveJobs | src/components/QuantumDashboard.tsx:20-31 | a successful fetch replaces the job list wholesale and leaves the filters alone |
| Dashboard.QuantumDashboard.SetSearch | src/components/QuantumDashboard.tsx:131 | replaces the search only; status, backend and jobs unchanged |
| Dashboard.QuantumDashboard.SetStatus | src/components/QuantumDashboard.tsx:132 | replaces the status only; search, backend and jobs unchanged |
| Dashboard.QuantumDashboard.SetBackend | src/components/QuantumDashboard.tsx:133 | replaces the backend only; search, status and jobs unchanged |
| Stats.CountStatus | src/components/DashboardStats.tsx:12-15 | a per-status count never exceeds the number of jobs |
| Stats.ComputeStats | src/components/DashboardStats.tsx:10-16 | total equals the number of jobs; an empty list gives all five counters zero |
| Stats.CountStatusZero | src/components/DashboardStats.tsx:12-15 | a counter is zero iff no job has that status |
| Stats.CountsPartitionTotal | src/components/DashboardStats.tsx:11-15 | the counts for the seven statuses add up to the number of jobs |
| Stats.BucketsWithinTotal | src/components/DashboardStats.tsx:11-15 | queued + running + completed + failed is at most total, with equality iff no job is initializing, validating or cancelled |
| Stats.CountIsFilteredLength | src/components/DashboardStats.tsx:12-15 | each status counter equals the number of cards shown with that status as the only filter |
| Stats.StatsBoundFilteredView | src/components/QuantumDashboard.tsx:128 | the counters are over the unfiltered list: total is at least the number of shown cards and each status counter at least the shown cards of that status |
| Stats.StatCards | src/components/DashboardStats.tsx:18-54 | exactly five tiles carrying total, queued, running, completed and failed, in that order |
| Stats.StatCardsOfJobs | src/components/DashboardStats.tsx:18-54 | tile titles are pairwise distinct, only the Total tile glows, the four status tiles sum to at most the Total tile, which shows the number of jobs |
| FilterControls.StatusOptionsSpec | src/components/JobFilters.tsx:20-27 | the status options are '', QUEUED, RUNNING, DONE, ERROR, VALIDATING in that order; each non-empty one names a status; INITIALIZING and CANCELLED are never offered |
| FilterControls.BackendOptions | src/components/JobFilters.tsx:90-95 | "All Backends" with value '' first, then one option per backend in the given order |
| FilterControls.BackendOptionValuesDistinct | src/components/JobFilters.tsx:90-95 | the backend options' values are pairwise distinct iff no job has an empty backend name |
| FilterControls.ActiveBadgesSpec | src/components/JobFilters.tsx:101-147 | the active-filter row appears iff some filter is set, with one badge per non-empty filter |
| FilterControls.JobFilters.constructor | src/components/JobFilters.tsx:36 | the search box starts with the applied search text |
| FilterControls.JobFilters.OnInput | src/components/JobFilters.tsx:61 | typing changes only the search box; the applied filters and jobs are unchanged |
| FilterControls.JobFilters.HandleSearchSubmit | src/components/JobFilters.tsx:38-41 | submitting sets the applied search to the box's text and leaves status, backend and the box unchanged |
| FilterControls.JobFilters.OnStatusSelect | src/components/JobFilters.tsx:71 | choosing a status replaces only the applied status |
| FilterControls.JobFilters.OnBackendSelect | src/components/JobFilters.tsx:85 | choosing a backend replaces only the applied backend |
| FilterControls.JobFilters.ClearAllFilters | src/components/JobFilters.tsx:43-48 | the box, search, status and backend all become empty, so the filtered view is the whole job list |
| FilterControls.JobFilters.RemoveSearchBadge | src/components/JobFilters.tsx:110-113 | clears the box and the applied search only |
| FilterControls.JobFilters.RemoveStatusBadge | src/components/JobFilters.tsx:123 | clears the applied status only |
| FilterControls.JobFilters.RemoveBackendBadge | src/components/JobFilters.tsx:133 | clears the applied backend only |
| Page.RenderPage | src/components/QuantumDashboard.tsx:127-154 | the page has five tiles whose Total is the number of jobs in the batch, one backend option more than the batch has backends, and a badge row iff some filter is set |
| Page.PanelsIgnoreFilters | src/components/QuantumDashboard.tsx:128-135 | any two filter records give the same tiles and the same backend options, because both panels receive the whole batch |
| Page.PanelsSeeWholeBatch | src/components/QuantumDashboard.tsx:128-154 | the Total tile is the batch size (at least the number of shown cards), each status tile counts that status over the whole batch, every job's backend is offered, and the cards shown are the filtered view |
| Card.StatusVariant | src/components/JobCard.tsx:11-26 | 'destructive' iff ERROR; 'default' iff RUNNING or DONE; 'secondary' for QUEUED, VALIDATING and the default branch (INITIALIZING, CANCELLED) |
| Card.StatusColor | src/components/JobCard.tsx:28-43 | 'text-muted-foreground' iff the status is INITIALIZING or CANCELLED |
| Card.StatusColorSpec | src/components/JobCard.tsx:28-43 | QUEUED, RUNNING, DONE, ERROR and VALIDATING get pairwise distinct colours; the badge is destructive iff its colour is the error colour |
| Card.NameSlot | src/components/JobCard.tsx:57-59 | the name line is shown iff the name is present and non-empty, and then shows that name |
| Card.NumberSlot | src/components/JobCard.tsx:75-99 | a position, shots or qubits row is shown iff the field is present and non-zero, shows that value, and never leaves stray text |
| Card.NumberSlotAsWritten | src/components/JobCard.tsx:83-90 | as written, the slot leaves stray text iff the field is present and zero, and shows a row iff it is present and non-zero (see Findings) |
| Card.ZeroShotsLeavesStrayText | src/components/JobCard.tsx:83-90 | with shots 0 the slot as written prints "0" while the corrected slot shows nothing |
| Card.NumberSlotDiffersOnlyAtZero | src/components/JobCard.tsx:75-99 | the slot as written and the corrected slot differ exactly on a present zero |
| Card.TagsSlot | src/components/JobCard.tsx:109-121 | the tag row is shown iff tags are present and non-empty, with one badge per tag in order |
| Card.RenderCardSpec | src/components/JobCard.tsx:45-125 | a card always shows id, status and backend; the variant is destructive iff ERROR; each optional row appears exactly when its field is present and truthy |

## Left out

- Polling through `useQuery` (the 30-second refetch interval, 3 retries, `isLoading`, `isFetching`, `error`), the asynchronous `handleRefresh` and its toasts: timer- and promise-driven, inside a library that is not part of this model. `QuantumDashboard.ReceiveJobs` stands for one successful fetch.
- The full-page error state and the loading placeholder, which depend on those flags.
- The mock job generator in `src/services/quantumService.ts` (random ids, statuses, delays and a date sort) and the unused `QuantumBackend` type.
- `formatDistanceToNow` on the creation time and `toLocaleString` on the shot count: clock- and locale-dependent.
- JSX markup, icons, layout and class names, apart from the two status mappings and the tile colours.
- Text.ToLower: only ASCII letters are lower-cased; JavaScript's `toLowerCase` folds all of Unicode.
- Text.LexLess: characters are compared by Unicode scalar value; JavaScript compares UTF-16 code units, which orders characters above U+FFFF differently from those in U+E000–U+FFFF.
- JavaScript numbers are modelled as integers: fractional values and NaN (falsy, and printed as "NaN") are not covered.
- What the select widget does with an empty-string option value is library behaviour; choosing an option is modelled as passing its value to the setter.
- `useMemo` caching: the derived values are pure functions recomputed from their inputs.
- Card.RenderCard uses the corrected numeric slots; the behaviour as written is kept in Card.NumberSlotAsWritten.

## Findings

| source | as written | input that shows it | evidently intended | confidence | as-written member | corrected member |
|---|---|---|---|---|---|---|
| src/components/JobCard.tsx:83 | `{job.shots && (…)}` evaluates to the number itself when it is 0, and React prints 0 as text; the same pattern guards position (line 75) and qubits (line 92) | a job with `shots: 0` (or `position: 0`, `qubits: 0`) | no row and no text for a zero value | medium, not executed (the mock data never produces 0; the type allows it) | Card.NumberSlotAsWritten, Card.ZeroShotsLeavesStrayText | Card.NumberSlot, Card.RenderCardSpec |
