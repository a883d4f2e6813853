# Experience and dashboard statistics, modelled in Dafny

The service computes statistics about an *experience* (a learning program) for a reporting front end. It is an AWS Lambda handler. An event `{ type, id }` selects one of three jobs:

- **`experience`** returns an experience's statistics through a cache-aside lookup. The cache key is `experience-stats-<id>`. A record younger than a minute is served from the cache. Otherwise five aggregators run over the database's result sets:
  - enrolled and registered users per role;
  - active users per role;
  - feedback loops started and completed;
  - the average review rating;
  - the on-track ratio.

  The composite record is then written to the cache, stamped with the current time, and returned.
- **`experience-all`** walks the experience listing. It refreshes every experience that is not completed and whose cached record is missing or at least an hour old.
- **`dashboard`** runs eight queries and projects their rows onto overview, funnel and per-milestone feedback-cycle metrics. A missing row reads as zeros. It stores the result under `dashboardStatistics` in the experience's `meta` document and saves that document back.

The handler resolves with a `{ success, data }` envelope, or with nothing for `experience-all`.

The model is split into one module per concern.

| file | module | what it holds |
|---|---|---|
| `wrappers.dfy` | `Wrappers` | `Option` and `Result` |
| `utils.dfy` | `Utils` | the reply envelope |
| `json.dfy` | `Json` | JavaScript values, truthiness, property and index reads |
| `db.dfy` | `Db` | result-set shaping of `query`, the started-loop fold, single-row reads |
| `keys.dfy` | `CacheKeys` | the cache key, its decimal round trip and its injectivity |
| `aggregators.dfy` | `Aggregators` | the reducers of the experience statistics |
| `experience.dfy` | `Experience` | the cache, `experience`, `allExperiences` |
| `dashboard.dfy` | `Dashboard` | `checkValue`, metric projection, meta decode/merge/save |
| `handler.dfy` | `Handler` | event validation and dispatch |

How the model treats each kind of input:

- **Queries.** A query is represented by what the database driver resolves with (its rows) or rejects with.
- **Clock.** The clock is the parameter `now`.
- **Redis cache.** The cache is a class whose `entries` map the methods reassign. An absent key and one whose stored text does not decode are both simply missing from the map.
- **Meta column.** The experience table's `meta` column is a class whose `meta` map `SaveMeta` reassigns.
- **Stateful operations.** `experience`, `allExperiences`, `getDashboardStats`, `dashboard` and the handler are methods. Each is proved against a specification function (`Lookup`, `Selected`/`Sweep`, `DashboardRun`, `RouteEvent`).
- **Aggregators.** The aggregators are methods with loops, proved against recursive specification functions. Lemmas then state what those functions mean.

Two behaviours of the on-track aggregator are modelled as written:

- **First row of a user.** A user's first row counts as *on* only when its value is `'1'`, and as *off* only when it is `'0'`. Later rows count anything other than `'1'` as off. `TallyCharacterized` states this through `FirstRowUncounted`.
- **Users with no counted rows.** A user with no counted row has `0/0`, which is NaN. Such a user is never on track but is still counted in the denominator. `OnTrack` is false unless `on + off > 0`.

A rejected query is not caught anywhere: `experience`, `allExperiences` and `dashboard` reject, and so does the handler. The model follows the code, so such calls return `Err(failure)`.

## Model

| member | source | states |
|---|---|---|
| Utils.Success | src/utils.ts:2-7 | `success(d)` has flag true and carries `d` unchanged |
| Utils.Error | src/utils.ts:9-14 | `error(d)` has flag false and carries `d` unchanged |
| Utils.EnvelopesDistinguishable | src/utils.ts:2-14 | a success envelope never equals an error envelope; each constructor is injective in its payload |
| Db.Query | src/data-sources/db.ts:30-42 | a database error is rethrown unchanged; an empty result is `null` with `returnTheFirst` and `[]` without; otherwise the first row, or all rows in order |
| Db.ListRowsAreDriverRows | src/data-sources/db.ts:34-37 | a list query hands its caller exactly the driver's rows, or its error |
| Db.FeedbackLoopStartedCount | src/data-sources/db.ts:94-104 | the loop's count equals the sum over rows of `count > 0 ? count : 1`; it is at least the number of rows, and 0 for no rows |
| Db.StartedAtLeastOnePerSubmission | src/data-sources/db.ts:94-104 | every submission adds at least one started loop |
| Db.FeedbackLoopCompletedCount | src/data-sources/db.ts:107-120 | the first row's `count`; a query error is passed on; reading it off the `null` of an empty result rejects |
| Db.ReviewRatingAvg | src/data-sources/db.ts:122-133 | the first row's average, with a `null` average (nothing rated) read as 0; errors as above |
| CacheKeys.NatToString | src/experience.ts:18 | the decimal rendering of an id is a non-empty string of digits, one digit exactly below 10 |
| CacheKeys.NatToStringInjective | src/experience.ts:18 | different naturals render differently |
| CacheKeys.NatToStringRoundTrip | src/experience.ts:18 | reading the rendered digits back, most significant first, gives the natural rendered |
| CacheKeys.IntToStringRoundTrip | src/experience.ts:18 | a non-negative id renders as digits that read back as the id; a negative id renders as `-` then digits that read back as its magnitude |
| CacheKeys.IntToStringSign | src/experience.ts:18 | a rendered id starts with `-` exactly when it is negative |
| CacheKeys.IntToStringInjective | src/experience.ts:18 | different integers render differently |
| CacheKeys.CacheKey | src/experience.ts:15-18 | the key is `experience-stats-` followed, for a non-negative id, only by digits |
| CacheKeys.CacheKeyRoundTrip | src/experience.ts:15-18 | after `experience-stats-` the key reads back as the id: its decimal digits, or `-` and the magnitude's digits for a negative id |
| CacheKeys.CacheKeyInjective | src/experience.ts:15-18 | different experience ids have different cache keys |
| CacheKeys.CacheKeyOfExperienceOne | src/experience.ts:15-18 | experience 1's key is `experience-stats-1` |
| Aggregators.ParseRole | src/experience.ts:97 | a row's role selects a counter exactly when it names one of the four roles |
| Aggregators.RoleCounts.Add | src/experience.ts:98-100 | `counts[role] += n` raises that role's counter by `n` and leaves the other three alone |
| Aggregators.EnrolledCounts | src/experience.ts:84-103 | each role's counter is the sum of `count` over the rows that add to it |
| Aggregators.GetEnrolmentCount | src/experience.ts:81-106 | the loop yields the enrolled counts (every state) and the registered counts (`active` only), with `0 <= registered <= enrolled` per role |
| Aggregators.RegisteredAtMostEnrolled | src/experience.ts:96-103 | per role, the registered sum never exceeds the enrolled sum |
| Aggregators.EnrolledSumAppend | src/experience.ts:96-103 | the enrolment sum over two batches of rows is the sum of the two |
| Aggregators.UnknownEnrolmentRoleIgnored | src/experience.ts:97-102 | inserting a row of an unknown role anywhere changes no counter |
| Aggregators.UnmatchedRoleIsZero | src/experience.ts:84-95 | a role no row names stays 0 |
| Aggregators.ActiveCounts | src/experience.ts:117-127 | each role's active counter is the sum of `count` over its rows |
| Aggregators.GetActiveUserCount | src/experience.ts:114-130 | the loop yields exactly the active counts |
| Aggregators.ActiveCountIgnoresUnknownRoles | src/experience.ts:123-127 | the active counts equal those of the rows naming a known role only |
| Aggregators.KnownRoleRows | src/experience.ts:124 | a row is kept exactly when it is one of the input rows and names a known role; no more rows than the input |
| Aggregators.UnmatchedActiveRoleIsZero | src/experience.ts:117-127 | a role no active-user row names stays 0 |
| Aggregators.FindIndex | src/experience.ts:175 | `findIndex` is the first index with that id, or -1 when none has it |
| Aggregators.TallyRow | src/experience.ts:175-187 | one row keeps every tally's user in place, changes only the row user's tally, and appends a tally for that user exactly when `findIndex` misses |
| Aggregators.Tally | src/experience.ts:173-189 | no more tallies than rows, and at least one when there are rows |
| Aggregators.OnTrack | src/experience.ts:190 | a user is on track exactly when they have an `on` and at least four times as many `on` as `off` |
| Aggregators.OnTrackIsEightyPercent | src/experience.ts:190 | the integer test equals `on / (on + off) >= 0.8`, with `0/0` never on track |
| Aggregators.CountOnTrack | src/experience.ts:190 | at most one on-track user per tally |
| Aggregators.GetOnTrackRatio | src/experience.ts:162-193 | the two loops compute the on-track ratio: exactly -1 for no rows, within [0, 1] otherwise |
| Aggregators.OnTrackRatio | src/experience.ts:164-192 | the ratio is exactly -1 for no rows, and a proportion in [0, 1] with rows |
| Aggregators.RatioOfCountsBounds | src/experience.ts:190-192 | a count over a larger positive count lies in [0, 1] |
| Aggregators.OnRowsOf | src/experience.ts:177-185 | a user's '1' rows are no more than their rows |
| Aggregators.RowUsers | src/experience.ts:174 | a user is among the rows' users exactly when some row is about them |
| Aggregators.StatIds | src/experience.ts:175 | an id is tallied exactly when `findIndex` finds it |
| Aggregators.TallyCharacterized | src/experience.ts:174-189 | the fold gives one tally per distinct user; `on` counts the '1' rows; `on + off` counts all rows but a first row that is neither '0' nor '1' |
| Aggregators.OtherUserUnchanged | src/experience.ts:174-189 | a row about another user changes none of user `u`'s row, `on` or first-row counts |
| Aggregators.SeenUserCounts | src/experience.ts:176-182 | a further row of a seen user adds one row, an `on` exactly for '1', and keeps the first row |
| Aggregators.NewUserCounts | src/experience.ts:183-187 | a new user's first row is its only row; it is `on` for '1' and goes uncounted unless '0' or '1' |
| Aggregators.NewUserSameUsers | src/experience.ts:183-187 | appending a new user's tally keeps the tallied users equal to the users in the rows |
| Aggregators.TallyStepIds | src/experience.ts:174-189 | one more row keeps every tally's user in place and appends at most one tally, for a new user |
| Aggregators.EarlierUsersFirstRow | src/experience.ts:174-189 | one more row moves no tallied user's first row |
| Aggregators.NewUserFirstRow | src/experience.ts:183-187 | a user first seen in the last row has that row as first row |
| Aggregators.FindIndexSameIds | src/experience.ts:175 | bumping a counter of a tally does not move any user's index |
| Aggregators.FindIndexSnoc | src/experience.ts:183-187 | pushing a new user's tally makes it findable at the end and moves no one else |
| Aggregators.DistinctUsersCount | src/experience.ts:174-189 | tallies with distinct ids have as many ids as tallies |
| Aggregators.TallyBoundedByRows | src/experience.ts:174-189 | per user, `on + off` is at most the user's row count, and equal to it when every value is '0' or '1' |
| Aggregators.OnlyBinaryValuesAllCounted | src/experience.ts:185-186 | when every value is '0' or '1', no first row goes uncounted |
| Aggregators.FirstRowIndexBound | src/experience.ts:174-189 | a user's first row is a row about that user |
| Aggregators.TallyInFirstAppearanceOrder | src/experience.ts:174-189 | the tallies are in the order of each user's first row |
| Aggregators.TallyPerDistinctUser | src/experience.ts:173-189 | there are exactly as many tallies as distinct users in the rows |
| Aggregators.OnTrackRatioOverDistinctUsers | src/experience.ts:190-192 | with rows, the ratio is the on-track count over the number of distinct users |
| Aggregators.ExampleEnrolledCounts | src/__tests__/experience.spec.ts:18-59 | the test rows enrol 4 admins, 11 coordinators, 8 mentors, 8 participants |
| Aggregators.ExampleRegisteredCounts | src/__tests__/experience.spec.ts:18-59 | of those, 1, 4, 2 and 3 are active |
| Aggregators.ExampleEnrolledCountsHalf | src/__tests__/experience.spec.ts:18-38 | the participant and mentor test rows enrol 8 of each |
| Aggregators.ExampleRegisteredCountsHalf | src/__tests__/experience.spec.ts:18-38 | of those, 3 participants and 2 mentors are active |
| Aggregators.ExampleTally | src/__tests__/experience.spec.ts:81-130 | the test rows tally users 1-4 as 5/1, 2/1, 1/1, 0/1 |
| Aggregators.ExampleOnTrackRatio | src/__tests__/experience.spec.ts:81-130 | 1 user of 4 is on track: the ratio is 0.25 |
| Experience.ComputeStats | src/experience.ts:28-49 | the record computes exactly when every query succeeds and both single-row queries found a row; the first query's failure wins; registered ≤ enrolled per role; started ≥ number of submissions; the ratio is -1 exactly for no team rows, else in [0, 1] |
| Experience.Cache.Read | src/data-sources/redis.ts:19-32 | the cached entry under the key, or none |
| Experience.Cache.Write | src/data-sources/redis.ts:34-41 | the key now holds the entry; every other key is unchanged; the write is logged |
| Experience.IsFresh | src/experience.ts:23 | fresh only with a record younger than the window; a record stamped at or after `now` is always fresh |
| Experience.Recompute | src/experience.ts:27-55 | a computed record is both written, stamped `now`, and returned; a failure writes nothing |
| Experience.Experience | src/experience.ts:17-56 | the reply, new cache and write log are those `Lookup` specifies: a hit serves the cached data and writes nothing; otherwise exactly one write of `{created: now, data}` under `experience-stats-<id>` |
| Experience.FreshRecordServed | src/experience.ts:20-26 | a record with `now - created < 60000` is returned as `success(data)` and nothing is written |
| Experience.StaleRecordRecomputed | src/experience.ts:23-55 | a missing record, or one with `now - created >= 60000`, is recomputed, written once and returned, or the failure is passed on with no write |
| Experience.FreshnessBoundary | src/experience.ts:23 | 59999 ms after `created` the record is served; 60000 ms after it is recomputed |
| Experience.SecondCallServesFirstResult | src/experience.ts:20-54 | within a minute of a recompute, a second call returns the same data and writes nothing, whatever its queries would give |
| Experience.FailureWritesNothing | src/experience.ts:34-54 | a rejected call writes nothing |
| Experience.NeedsRefresh | src/experience.ts:63-73 | a completed experience never needs a refresh; one that does is stale for `experience` too; a live experience without a record always does |
| Experience.ChooseRefreshes | src/experience.ts:62-76 | the loop collects exactly the ids `Selected` specifies, in listing order, without touching the cache |
| Experience.AllExperiences | src/experience.ts:58-79 | a listing failure is passed on; otherwise the cache, write log and result are those of running `experience` for each selected id in turn, the first failure winning |
| Experience.SelectedExactly | src/experience.ts:62-76 | an id is launched exactly when some listed experience with that id is not completed and its record is missing or at least an hour old |
| Experience.CompletedNeverRefreshed | src/experience.ts:63-66 | a completed experience is never launched |
| Experience.SelectedAreStale | src/experience.ts:71 | a launched id's record is stale for `experience` too, so every launched call recomputes |
| Experience.SweepLeavesOtherKeys | src/experience.ts:75 | the sweep changes no key other than the launched ids' keys |
| Experience.SweepWrites | src/experience.ts:75-77 | over distinct stale ids, each launched id that computes holds `{created: now, data}`; one that fails keeps its record |
| Experience.SweepFailureStep | src/experience.ts:75-77 | one more launched call fails the sweep exactly when it had failed already or that call's statistics fail |
| Experience.SweepFails | src/experience.ts:77 | over distinct stale ids, the sweep fails exactly when some launched id's statistics fail |
| Experience.SelectedDistinct | src/experience.ts:62-76 | distinct listed ids give distinct launches |
| Experience.SweepRefreshes | src/experience.ts:58-79 | per listed experience: one needing a refresh whose statistics compute ends with its new record; one needing none keeps its record untouched |
| Experience.ExampleListingSelection | src/__tests__/experience.spec.ts:131-140 | with nothing cached, the test listing (1 live, 2 completed) refreshes only experience 1 |
| Dashboard.CheckValue | src/dashboard.ts:112-114 | the default exactly when the record is falsy; otherwise the record's own property, `undefined` when it has none |
| Dashboard.CheckValueAbsentKey | src/dashboard.ts:112-114 | a present record without the key gives `undefined`, not the default |
| Dashboard.Overview | src/dashboard.ts:43-53 | each overview metric of a missing (falsy) row is 0 |
| Dashboard.Funnel | src/dashboard.ts:55-71 | every funnel metric is 0 when the feedback row is missing |
| Dashboard.CycleMetricOf | src/dashboard.ts:74-86 | both hide-lock metrics are 0 when the hide-lock row is missing |
| Dashboard.BuildCycleMetrics | src/dashboard.ts:72-88 | the loop pushes one entry per cycle row, in order, entry `i` built from cycle row `i` and hide-lock row `i` |
| Dashboard.CycleMetricsPairing | src/dashboard.ts:72-88 | the cycle metrics have one entry per cycle row, entry `i` paired with hide-lock row `i` |
| Dashboard.MissingHideLockRowGivesZeros | src/dashboard.ts:84-85 | with no hide-lock row at index `i`, entry `i` has `hideOrLock` and `visibleNotComplete` 0 |
| Dashboard.ExtraHideLockRowsIgnored | src/dashboard.ts:73-88 | hide-lock rows past the last cycle row change nothing |
| Dashboard.FirstRow | src/data-sources/db.ts:34-37 | a single-row query gives its first row, `null` for none, or its error |
| Dashboard.FetchAll | src/dashboard.ts:23-41 | the rows are gathered exactly when all eight queries succeed; the first query's failure wins; the two lists are the driver's rows |
| Dashboard.Assemble | src/dashboard.ts:90-95 | `lastUpdated` is `now`; one cycle entry per cycle row, each paired by index |
| Dashboard.DecodeMeta | src/dashboard.ts:98-99 | decoding starts from `{}` when the experience row is missing or its meta is falsy or `'[]'`; otherwise it is `JSON.parse`'s result, a syntax error rejecting |
| Dashboard.SetStatistics | src/dashboard.ts:101-105 | an object meta gains `dashboardStatistics` = the result and keeps every other key; an array is saved unchanged; `null` or a primitive rejects |
| Dashboard.ExperienceTable.SaveMeta | src/data-sources/db.ts:729-733 | the update is logged; it replaces that row's meta if the row exists and the update succeeds, else changes nothing |
| Dashboard.GetDashboardStats | src/dashboard.ts:22-107 | the reply, save log and table are those `DashboardRun` specifies: exactly one save with the given id once the queries and decoding succeed, none otherwise |
| Dashboard.Dashboard | src/dashboard.ts:17-20 | the statistics are wrapped in a success envelope; a failure is passed on |
| Dashboard.ReplyIsSavedStatistics | src/dashboard.ts:90-106 | a successful call saved one document; its result has `lastUpdated = now`; with an object meta, the saved `dashboardStatistics` is the returned result and all other keys are kept |
| Dashboard.FreshMetaHoldsOnlyStatistics | src/dashboard.ts:98-105 | with no stored meta (or `'[]'`), the saved document holds only `dashboardStatistics` |
| Dashboard.EmptyOverviewQueriesGiveZeros | src/dashboard.ts:43-53 | when the four overview queries find no rows, all nine overview metrics are 0 |
| Dashboard.FailedQuerySavesNothing | src/dashboard.ts:23-41 | a failed query fails the call and saves nothing |
| Handler.TypeMissing | src/index.ts:16 | `!event.type`: the type is missing exactly when it is not truthy |
| Handler.IdMissing | src/index.ts:23-33 | `!event.id`: the id is missing exactly when it is not truthy |
| Handler.RouteEvent | src/index.ts:14-38 | `invalid event` exactly when `type` is falsy; `experience id missing` exactly for `experience`/`dashboard` with a falsy id; `experience-all` runs with any id; any other type gives `event type not found` |
| Handler.ZeroIdRejected | src/index.ts:22-34 | an id of 0, or none, is rejected for `experience` and `dashboard` |
| Handler.AllExperiencesNeedsNoId | src/index.ts:28-29 | `experience-all` dispatches whatever the id |
| Handler.Handle | src/index.ts:14-38 | a rejected event changes nothing and replies `error(message)`; a valid event returns the callee's result unchanged; the callee's store (cache entries and write log, or table documents and save log) changes exactly as the callee states, and the other store not at all |

## Left out

- Logging (`Log.*`), the Lambda `wrap` and middy middleware, and the invoking script are left out. They do not affect any value.
- The SQL text of every query is opaque. A query is represented only by the rows it resolves with or the error it rejects with.
- The Redis client is not modelled: PHP `serialize`/`unserialize` and the `CACHE_EXPIRE_TIME` expiry are left out. A key that is absent and one whose stored text does not decode are the same missing key.
- Experience.Cache.Read: never fails. In the source a failed Redis GET rejects `readCache`, and with it `experience` and `allExperiences`; the model has no such failure.
- `Promise.all` and the un-awaited `writeCache` are modelled as sequential steps, with the first failure in argument order winning. A cache write takes effect at once.
- `Experience.AllExperiences` decides every launch from the cache as it was before the sweep. It then runs the launched calls one after another, each call ending before the next begins. Two listed rows with the same id (impossible for a primary key) would see each other's write here.
- The clock is read once per call. `experience` reads `Date.now()` for the check and again for the write; both reads are `now` here. All calls of one sweep share one `now`.
- Aggregators.GetOnTrackRatio: returns the exact ratio; the source rounds it to two decimals with `toFixed(2)`, a floating-point step not modelled.
- Db.ReviewRatingAvg: returns the exact average; the source rounds it with `toFixed(2)`.
- Aggregators.EnrolledCounts: counts arrive as numbers; the source converts the driver's text counts with unary `+`, and a non-numeric count (NaN) is not modelled.
- Handler.IdMissing: treats only a missing id and 0 as falsy; a NaN id is not modelled.
- Dashboard.DecodeMeta: compares only a string meta with `'[]'`. A non-string meta is treated as different from it, although JavaScript's loose comparison would equate a one-element array holding `'[]'` with it.
- Dashboard.SetStatistics: rejects for a `null` or primitive document. The compiled module is taken to run in strict mode, where setting a property on a primitive throws.
- `JSON.parse` is the parameter `parse`. `JSON.stringify` is not modelled: the saved document is the structure before serialisation, so a property that reads as `undefined` is kept rather than dropped.
- The experience row the dashboard reads and the table it saves into are independent inputs. The model does not tie the row to a prior save.

The cache entry type is `Experience.CacheEntry`, a record of `created` and `data`. Everything the handler's callees read is bundled in `Handler.Backend`.
