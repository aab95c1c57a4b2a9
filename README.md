# Application state of the docu-gen dashboard, in Dafny

This project models the per-user state core of the docu-gen dashboard. The core keeps three things in memory:

- a list of documentation projects, newest first;
- usage counters: API calls, storage, project count and documents generated, each shown next to its limit;
- a subscription plan: free, pro or enterprise.

It loads these from the browser's key/value store when a user signs in. It writes each one back after it changes. The model also covers the pure logic of three pages that sit on this state:

- **Projects page:** the search and language filter, the language choices, relative dates and delete confirmation.
- **Analytics page:** per-language counts, pie-chart entries and the two clamped chart series.
- **Generate page:** the input guards, the state a finished generation commits, and the project name taken from a dropped file.

Files:

- `app_context.dfy` (module `AppContext`). The records (`Project`, `UsageStats`, `Plan`) and the updater functions that the state setters receive. The five operations appear as functions of the whole state (`AfterAdd`, `AfterUpdate`, `AfterDelete`, `AfterIncrement`, `AfterUpgrade`). The file also holds the invariants and what they survive, load and save as functions over the store's map, and the `AppProvider` class. That class has the three state cells, the signed-in user and a `LocalStore`, and each of its methods is proved against the matching function.
- `projects_page.dfy`, `analytics.dfy`, `generate.dfy`: the page logic. Methods there act on a shared `AppProvider`.
- `seqs.dfy`, `strings.dfy`, `wrappers.dfy`: the JavaScript built-ins the pages rely on: `filter`, de-duplication through a `Set`, `toLowerCase`, `includes`, `trim`, `split`, number-to-text and optional values.

Units. Timestamps and new ids are integers and strings that the caller passes in. They stand for `Date.now()` and its string form. Storage is counted in whole tenths of a gigabyte: the default 2.3 GB is 23, the free limit of 10 GB is 100, and one generation adds 1.

Places where the code does something other than a reader might expect. The model follows the code in each case:

- Deleting an id that no project has still lowers the project counter (floored at 0). The list stays unchanged. See `DeleteAbsentId` and `DeleteAbsentBreaksCounter`.
- Ids are unique only if every new id is fresh. Two projects created in the same millisecond share an id. Deleting that id then removes both projects but lowers the counter by one (`SameMillisecondCollision`).
- The project counter equals the list length only under conditions: it started equal, ids are unique and stay fresh, no update renames a project, and every delete targets a present id (`DisciplinedRunKeepsCounter`).
- Every operation keeps the limits equal to the table value for the plan (`RunKeepsLimits`). A load that finds a saved plan but no saved usage breaks this (`SavedPlanWithoutUsage`).
- The provider wraps the whole application. When it loads a user with no saved plan or usage, it keeps whatever plan and usage are already in memory. That can be the previous user's (`AbsentKeysKeepCurrent`). An empty saved project list is kept and does not bring the sample projects back.
- The delete confirmation does nothing when the pending id is the empty string, because the empty string is falsy. In that case the dialog stays open.
- One hour reads "1 hours ago".

## Model

| member | source | states |
|---|---|---|
| AppContext.Merge | src/contexts/AppContext.tsx:161 | each supplied field overwrites the record's, each absent field keeps its old value (createdAt included), and lastModified is forced to now |
| AppContext.UpdateById | src/contexts/AppContext.tsx:159-163 | the list keeps its length and order; records with the id are merged and all others are unchanged |
| AppContext.RemoveById | src/contexts/AppContext.tsx:167 | no remaining record has the id, every record with another id remains, the rest keep their relative order, and the length is the number of other-id records |
| AppContext.AfterAdd | src/contexts/AppContext.tsx:144-156 | the new record with the given id and createdAt is at index 0 and the old list follows unchanged; projects and documentsGenerated rise by 1 and every other counter, limit and the plan are unchanged |
| AppContext.AfterUpdate | src/contexts/AppContext.tsx:158-164 | only records with the id change, and only as Merge says; counters and plan are untouched |
| AppContext.AfterDelete | src/contexts/AppContext.tsx:166-172 | every record with the id is removed; every other record stays, each copy of it, in its order (the length is the number of other-id records); the project counter becomes max(0, old-1) whatever the list held |
| AppContext.AfterIncrement | src/contexts/AppContext.tsx:174-179 | exactly the named counter grows by the amount, with no clamp; list, plan and limits are unchanged |
| AppContext.AfterUpgrade | src/contexts/AppContext.tsx:181-196 | the plan is set and both limits come from the table for it; list and counters are unchanged |
| AppContext.MergeIdempotent | src/contexts/AppContext.tsx:161 | applying the same update twice at the same time gives the same record as once |
| AppContext.StatusUpdateKeepsCreation | src/contexts/AppContext.tsx:158-163 | a status-only update changes status and lastModified and keeps createdAt and everything else |
| AppContext.UpdateAbsentId | src/contexts/AppContext.tsx:158-163 | updating an id no record has leaves the whole state unchanged |
| AppContext.DeleteAbsentId | src/contexts/AppContext.tsx:166-171 | deleting an absent id keeps the list but still lowers the counter to max(0, old-1) |
| AppContext.IncrementCanExceedLimit | src/contexts/AppContext.tsx:174-179 | a large enough increment leaves apiCalls above maxApiCalls; nothing prevents it |
| AppContext.UpgradeIdempotent | src/contexts/AppContext.tsx:181-196 | upgrading twice to one plan equals upgrading once |
| AppContext.UpgradeForgetsPreviousPlan | src/contexts/AppContext.tsx:181-196 | the state after an upgrade does not depend on the earlier plan or limits |
| AppContext.UpgradeFreeToPro | src/contexts/AppContext.tsx:181-196 | from the default free state, upgrading to pro gives limit 5000 and keeps the 23 calls |
| AppContext.DowngradeKeepsOverQuota | src/contexts/AppContext.tsx:181-196 | an enterprise account with 200 calls downgraded to free gets limit 50 and keeps 200 calls |
| AppContext.StepKeepsLimits | src/contexts/AppContext.tsx:144-196 | every operation keeps the limits equal to the table value for the plan |
| AppContext.RunKeepsLimits | src/contexts/AppContext.tsx:144-196 | any sequence of operations from a state whose limits match its plan keeps them matching |
| AppContext.StepKeepsCounter | src/contexts/AppContext.tsx:144-172 | an add with a fresh id, an update that does not rename, a delete of a present id, an increment or an upgrade keeps ids unique and the counter equal to the list length |
| AppContext.DisciplinedRunKeepsCounter | src/contexts/AppContext.tsx:144-172 | under those conditions the counter equals the list length and ids stay unique after any sequence of operations |
| AppContext.DeleteAbsentBreaksCounter | src/contexts/AppContext.tsx:166-171 | from an exact counter and a non-empty list, deleting an absent id leaves the counter below the list length |
| AppContext.SameMillisecondCollision | src/contexts/AppContext.tsx:144-171 | two creates with the same id followed by one delete leave an empty list with counter 1 |
| AppContext.KeysDistinct | src/contexts/AppContext.tsx:62-64 | the projects_, plan_ and usage_ keys never collide across domains, and each key determines its user |
| AppContext.SampleProjects | src/contexts/AppContext.tsx:70-111 | four completed records with ids "1" to "4", no documentation, created at least two hours before now, newest first |
| AppContext.Restore | src/contexts/AppContext.tsx:60-123 | the saved list if the projects_ key is present, else the samples; the saved plan and usage if their keys are present, else the in-memory ones |
| AppContext.SaveAll | src/contexts/AppContext.tsx:125-142 | afterwards the store holds the state's list, plan and usage under the user's three keys, and every other key is present and unchanged exactly as before |
| AppContext.SaveKeepsOtherUsers | src/contexts/AppContext.tsx:125-142 | saving for one user leaves another user's snapshots unchanged |
| AppContext.RestoreAfterSave | src/contexts/AppContext.tsx:60-142 | loading what was saved for the same user reproduces the list, the plan and the usage |
| AppContext.FirstRunSeeds | src/contexts/AppContext.tsx:66-113 | with no saved list a load seeds exactly four records, with ids "1" to "4", all distinct |
| AppContext.AbsentKeysKeepCurrent | src/contexts/AppContext.tsx:115-121 | an absent plan or usage leaves the in-memory plan and usage in place |
| AppContext.FirstLogin | src/contexts/AppContext.tsx:49-123 | a first login on a fresh provider yields the samples, plan free and usage 23/50/2.3/10/4/12, with limits matching and counter exact |
| AppContext.SavedPlanWithoutUsage | src/contexts/AppContext.tsx:115-121 | a saved pro plan without saved usage loads with the free limits, so limits no longer match the plan |
| AppContext.AppProvider.constructor | src/contexts/AppContext.tsx:46-57 | a mounted provider has no user, an empty list, plan free and the default counters |
| AppContext.AppProvider.SaveProjects | src/contexts/AppContext.tsx:126-130 | with a user, writes the list under projects_{id}; without, writes nothing |
| AppContext.AppProvider.SavePlan | src/contexts/AppContext.tsx:132-136 | with a user, writes the plan under plan_{id}; without, writes nothing |
| AppContext.AppProvider.SaveUsage | src/contexts/AppContext.tsx:138-142 | with a user, writes the counters under usage_{id}; without, writes nothing |
| AppContext.AppProvider.OnUserChange | src/contexts/AppContext.tsx:60-142 | for a user: state becomes the restored one and all three keys are written, so the store is in sync; on sign-out nothing changes |
| AppContext.AppProvider.AddProject | src/contexts/AppContext.tsx:144-156 | state becomes AfterAdd of the old state; only projects_ and usage_ keys are rewritten and the store stays in sync |
| AppContext.AppProvider.UpdateProject | src/contexts/AppContext.tsx:158-164 | state becomes AfterUpdate; only the projects_ key is rewritten |
| AppContext.AppProvider.DeleteProject | src/contexts/AppContext.tsx:166-172 | state becomes AfterDelete; only projects_ and usage_ keys are rewritten |
| AppContext.AppProvider.IncrementUsage | src/contexts/AppContext.tsx:174-179 | state becomes AfterIncrement; only the usage_ key is rewritten |
| AppContext.AppProvider.UpgradePlan | src/contexts/AppContext.tsx:181-196 | state becomes AfterUpgrade; only plan_ and usage_ keys are rewritten |
| AppContext.ReloadSession | src/contexts/AppContext.tsx:60-142 | a new provider over the same store, signed in as the same user, holds the same list, plan and counters, and the store is left exactly as it was |
| Seqs.Distinct | src/pages/Projects.tsx:28 | the result lists every input element exactly once, ordered by first appearance |
| Seqs.Filter | src/pages/Projects.tsx:30-34 | the kept elements in their original order: a subsequence whose every element passes the test, holding every passing element, as many as pass |
| Strings.ToLower | src/pages/Projects.tsx:31 | same length, each character mapped to its lower-case form (ASCII letters only) |
| Strings.Includes | src/pages/Projects.tsx:31 | true exactly when the needle occurs at some position of the text; the empty needle occurs everywhere |
| ProjectsPage.FilteredProjects | src/pages/Projects.tsx:30-34 | the result is a subsequence of the list in its order, every shown project matches, every matching project is shown, and the length is the number of matching projects |
| ProjectsPage.NoFilterShowsAll | src/pages/Projects.tsx:30-34 | an empty search with filter 'all' shows the whole list |
| ProjectsPage.SearchIgnoresCase | src/pages/Projects.tsx:31 | lower-casing the search term first does not change which projects match |
| ProjectsPage.LanguageOptions | src/pages/Projects.tsx:28 | 'all' first, then each project language once in order of first appearance |
| ProjectsPage.HoursSince | src/pages/Projects.tsx:62 | the whole hours elapsed, rounded down, also for dates in the future |
| Strings.NatToString | src/pages/Projects.tsx:65-67 | the decimal digits of a whole number, at least one, with no leading zero, whose value is the number |
| ProjectsPage.AgeOf | src/pages/Projects.tsx:59-68 | the four bands cover every elapsed time exactly once: under an hour, 1-23 hours with the hour count, 24-47 hours, and 48 hours or more with the day count rounded down |
| ProjectsPage.FutureIsJustNow | src/pages/Projects.tsx:59-64 | a future date, or one less than an hour old, reads 'Just now' |
| ProjectsPage.FormatDate | src/pages/Projects.tsx:59-68 | 'Just now' exactly under an hour and '1 day ago' exactly from 24 to under 48 hours; from 1 to 23 hours '<n> hours ago' and from 48 hours '<n> days ago', where n is plain decimal digits with no leading zero and is the whole number of hours or days elapsed, rounded down |
| ProjectsPage.RequestDelete | src/pages/Projects.tsx:36-39 | the dialog opens holding the id to delete |
| ProjectsPage.ConfirmDelete | src/pages/Projects.tsx:41-48 | a pending non-empty id is deleted and the dialog cleared and closed, and only the user's projects_ and usage_ keys are rewritten; otherwise neither state, store nor dialog changes |
| ProjectsPage.DeleteThroughDialog | src/pages/Projects.tsx:36-48 | opening the dialog on an id and confirming deletes a non-empty id, rewrites only the user's projects_ and usage_ keys and ends closed and cleared; the empty id deletes nothing, leaves the store alone and keeps the dialog open on it |
| Analytics.LanguageStats | src/pages/Analytics.tsx:42-45 | the keys are exactly the languages in use and each value is that language's project count, at least 1 |
| Analytics.CountsSumToTotal | src/pages/Analytics.tsx:42-45 | the per-language counts add up to the number of projects |
| Analytics.LanguageData | src/pages/Analytics.tsx:47-51 | one entry per key in key order, named by the key and valued by the count |
| Analytics.ColoursCycle | src/pages/Analytics.tsx:50 | two entries share a colour exactly when their positions agree modulo 5 |
| Analytics.RequestSeries | src/pages/Analytics.tsx:31-39 | seven points: 30, 25, ..., 5 calls below the current count, each floored at 0, then the count itself |
| Analytics.ProjectSeries | src/pages/Analytics.tsx:54-61 | six points: 3, 2 and 1 below the count, each floored at 0, then the count, count+2 and count+4 |
| Analytics.LanguageChart | src/pages/Analytics.tsx:42-51 | entries follow the order of first use, each valued by its count (at least 1) and coloured Palette[i mod 5], with values summing to the number of projects |
| Analytics.RequestSeriesShape | src/pages/Analytics.tsx:31-39 | for apiCalls at least 0 the requests series has 7 points, is non-negative and non-decreasing, and ends at apiCalls |
| Analytics.ProjectSeriesShape | src/pages/Analytics.tsx:54-61 | for a count at least 0 the series is non-negative and non-decreasing, passes through the count in the fourth month and ends at count+4 |
| Strings.TrimEmptyIffAllSpace | src/pages/Generate.tsx:47 | the trimmed text is empty exactly when every character is white space |
| Strings.Trim | src/pages/Generate.tsx:47 | a contiguous run of the text with only white space before and after it, neither starting nor ending with white space |
| GeneratePage.CheckInput | src/pages/Generate.tsx:46-55 | blank code gives the code error whatever the name; non-blank code with a blank name gives the name error; otherwise generation proceeds |
| GeneratePage.CompletedDraft | src/pages/Generate.tsx:193-201 | the added project has the given name and language, status completed, the documentation text, fileCount = number of files, or 1 when there are none, and size = the first file's size label, or "0.5 MB" when there are none |
| GeneratePage.AfterGeneration | src/pages/Generate.tsx:193-205 | one completed project with the given id, name, language and documentation goes in front of the old list, created and modified now, with fileCount and size exactly as CompletedDraft gives them; projects, documentsGenerated and apiCalls rise by 1 and storage by 0.1 GB; plan and limits are unchanged and still match the plan if they did |
| GeneratePage.CommitGeneration | src/pages/Generate.tsx:193-205 | the completion callback leaves the state at AfterGeneration and rewrites only the user's projects_ and usage_ keys, once each |
| GeneratePage.GenerateDocumentation | src/pages/Generate.tsx:46-209 | a rejected input changes neither the state nor the store; an accepted one commits AfterGeneration, rewrites only the user's projects_ and usage_ keys, keeps every other key with its value, and leaves the store in sync |
| Strings.Stem | src/pages/Generate.tsx:39 | the text before the first '.': a prefix of the name with no '.', followed by a '.' or the end |
| GeneratePage.NameAfterDrop | src/pages/Generate.tsx:32-43 | with a dropped file the project name becomes its stem; with none it is unchanged |

## Left out

- Rendering, animation, styling, toasts, routing, the sign-in form, and the Settings, Billing and Dashboard pages. Billing only calls `upgradePlan`.
- The signed-in user's id is an input (`OnUserChange`). How the session itself works is not part of this model.
- The generation delay (`setTimeout`) and the `generating` flag: completion is one atomic step. It always commits, even if the page was left, because the source has no cancellation.
- The markdown template, FileReader, clipboard and download. The generated text and each dropped file's size label are parameters.
- `JSON.parse` of a malformed snapshot, which throws and is not handled. `OnUserChange` requires that each of the user's keys holds a decoded snapshot of the right kind. A saved plan string other than the three plans cannot be represented.
- React effect ordering: the save effects also run once with the state from before the load. Load and its saves form one atomic step here.
- Floating point. Storage is an exact count of tenths of a gigabyte, so `2.3 + 0.1` has no rounding error. Percentages, progress bars, `toFixed` size text and the storage series of the analytics chart are left out.
- Calendar dates and ISO strings. Dates are millisecond counts, so an unparseable date (which would give "NaN days ago") is not modelled.
- Strings.ToLower: lower-cases ASCII letters only, where `toLowerCase` also handles non-ASCII letters. Characters are Unicode scalar values, not UTF-16 code units.
- AppContext.Merge: an update can set `documentation` to a text but cannot set it back to `undefined`. An explicitly `undefined` field in an update is not modelled.
- Analytics.LanguageStats: counts every language as an ordinary map key. JavaScript reduces into a plain object, so a language named like an inherited member does not count: "toString" or "constructor" produces the inherited function's text with "1" appended, and "__proto__" never appears as a key. The app's own writes only produce fixed language names, but a stored snapshot could hold one of these.
- Analytics.LanguageChart: takes the map's keys in order of first insertion. JavaScript puts array-index-like keys (a language named "42") first.
