# DopWatch: a verified model of the usage-accounting and alerting core

DopWatch is an Android screen-time monitor. Every fifteen minutes a background worker does the following:

- It reads today's foreground-activity events and folds them into per-app foreground totals.
- It stores those totals as the day's rows in a table keyed by (date, package).
- It compares the totals with a daily limit and with SNS and video limits.
- It posts a local notification per alert.
- It pushes at most three LINE alert messages a day.
- It sends a LINE heartbeat once per morning and once per night window.
- It posts the day's total to Beeminder.

A dashboard view model shows today's rows, and a small local HTTP endpoint serves a day's rows as JSON.

The project models that core in Dafny, one module per source file:

| module | file | source |
|---|---|---|
| `UsageRepo` | usage_repo.dfy | data/UsageRepository.kt: the event fold, filter and sort, then saving the day |
| `UsageStore` | usage_store.dfy | data/AppUsageDao.kt and AppUsageEntity.kt: the (date, packageName)-keyed table |
| `CheckUsage` | check_usage.dfy | domain/CheckUsageUseCase.kt: threshold check, duration text, alert and follow-up messages |
| `Thresholds` | thresholds.dfy | domain/ThresholdConfig.kt: limits and package categories |
| `SettingsStore` | settings.dfy | data/SettingsRepository.kt: preference defaults, writes, predicates |
| `Worker` | worker.dfy | worker/UsageCheckWorker.kt: one tick of `doWork`, heartbeat slots, the daily push counter |
| `Dashboard` | dashboard.dfy | ui/dashboard/DashboardViewModel.kt: the UI state machine and its duration text |
| `LocalApi` | local_api.dfy | api/LocalApiServer.kt: routing and the `/api/usage` response |
| `Collections` | collections.dfy | Kotlin's `sumOf`, `map`, a stable `sortedByDescending`, and an insertion-ordered `mutableMapOf` |
| `Text` | text.dfy | Kotlin's `Long` division and printing, `joinToString`, `lines()`, `isBlank()`, `trimMargin()` |
| `Wrappers` | wrappers.dfy | `Option` |

## How the model is built

The stateful parts are classes whose methods are proved equal to functions of the old state:

- `UsageRepository` runs the `while` loop over events and the `for` loop over still-open sessions.
- `AppUsageDao` holds the table as a sequence of rows in insertion order.
- `SettingsRepository` holds the three preference maps.
- `UsageCheckWorker` holds the worker's preferences and a log of everything it sent.
- `DashboardViewModel` holds the UI state and a "refresh running" flag.
- `LocalApiServer` builds the `apps` array in a loop.

The properties the app relies on are lemmas about those functions. Examples:

- the per-package meaning of the fold;
- replace-by-date semantics;
- the order and presence of alerts;
- reading a rendered duration back;
- the three-pushes-a-day cap over any run of ticks.

Platform inputs are parameters:

- the event stream and "now";
- the label lookup, which may fail;
- today's date string and the current hour;
- the notification permission;
- the success or failure of each LINE and Beeminder call;
- the step at which a read throws.

Kotlin integer operators are written out explicitly: `Long` division truncates toward zero (`Text.Quot`, `Text.Rem`).

Three points of the code that the model follows as written:

- The daily alert counter rises after every push attempt: `incrementLineAlertCount()` runs after `sendMessage` whatever its result (UsageCheckWorker.kt:91-98), so a failed send also uses up one of the three pushes.
- `LocalApiServer.handleUsage` calls `dao.getUsageListByDate`. No such method exists in AppUsageDao.kt, so the call is modelled as the same query as `getUsageByDate` (date filter, longest first).
- The worker never reads the `maxAlertsPerDay` and `cooldownMinutes` settings: the daily cap is the constant 3 at UsageCheckWorker.kt:43, and there is no cooldown between pushes.

## Model

Paths are under app/src/main/java/com/sora/dopwatch/.

| member | source | states |
|---|---|---|
| UsageStore.DatedOnMembers | app/src/main/java/com/sora/dopwatch/data/AppUsageDao.kt:15-16 | `WHERE date = :date` selects every row of that date and no other row |
| UsageStore.DeleteDated | app/src/main/java/com/sora/dopwatch/data/AppUsageDao.kt:18-19 | after `deleteByDate(d)` a row remains exactly when it was there and is not dated d; the primary key stays unique |
| UsageStore.WithoutKey | app/src/main/java/com/sora/dopwatch/data/AppUsageDao.kt:12-13 | the REPLACE conflict step removes exactly the rows with the new row's (date, packageName) and changes nothing when there is none; keys stay unique |
| UsageStore.Upsert | app/src/main/java/com/sora/dopwatch/data/AppUsageDao.kt:12-13 | an inserted row is present afterwards and is the only row with its key; every row with another key survives; nothing else appears; keys stay unique |
| UsageStore.UpsertFresh | app/src/main/java/com/sora/dopwatch/data/AppUsageDao.kt:12-13 | inserting a row whose key is new is a plain append |
| UsageStore.UpsertAll | app/src/main/java/com/sora/dopwatch/data/AppUsageEntity.kt:6-10 | `insertAll` never leaves two rows with the same (date, packageName) primary key |
| UsageStore.Replaced | app/src/main/java/com/sora/dopwatch/data/AppUsageDao.kt:24-28 | `replaceByDate` keeps the primary key unique |
| UsageStore.UsageByDateMembers | app/src/main/java/com/sora/dopwatch/data/AppUsageDao.kt:15-16 | the listing for d holds exactly the rows dated d, each once, in non-increasing usageTimeMs |
| UsageStore.UpsertAllOntoFreshPackages | app/src/main/java/com/sora/dopwatch/data/AppUsageDao.kt:12-13 | inserting rows of date d, one per package and none whose package d already has, appends them to d's rows in order |
| UsageStore.ReplacedDay | app/src/main/java/com/sora/dopwatch/data/AppUsageDao.kt:24-28 | after `replaceByDate(d, xs)` with every x dated d and one x per package, the rows dated d are exactly xs, in order |
| UsageStore.WithoutKeyOtherDates | app/src/main/java/com/sora/dopwatch/data/AppUsageDao.kt:12-13 | replacing a row of date d leaves the rows of every other date as they were |
| UsageStore.DeleteDatedOtherDates | app/src/main/java/com/sora/dopwatch/data/AppUsageDao.kt:18-19 | `deleteByDate(d)` leaves the rows of every other date as they were |
| UsageStore.UpsertAllOtherDates | app/src/main/java/com/sora/dopwatch/data/AppUsageDao.kt:12-13 | inserting rows all dated d leaves the rows of every other date as they were |
| UsageStore.ReplacedOtherDays | app/src/main/java/com/sora/dopwatch/data/AppUsageDao.kt:24-28 | `replaceByDate(d, xs)` with every x dated d leaves the rows of every other date as they were |
| UsageStore.ReplacedDayWithNothing | app/src/main/java/com/sora/dopwatch/data/AppUsageDao.kt:24-28 | after `replaceByDate(d, [])` the listing for d is empty and no row is dated d, so the SUM query gives null |
| UsageStore.AppUsageDao.constructor | app/src/main/java/com/sora/dopwatch/data/AppUsageEntity.kt:6-10 | a new table is empty and satisfies the primary-key invariant |
| UsageStore.AppUsageDao.InsertAll | app/src/main/java/com/sora/dopwatch/data/AppUsageDao.kt:12-13 | the rows become the old rows with each usage inserted in turn, REPLACE on conflict; the key invariant is kept |
| UsageStore.AppUsageDao.GetUsageByDate | app/src/main/java/com/sora/dopwatch/data/AppUsageDao.kt:15-16 | the result is exactly the rows dated d, each once, longest first |
| UsageStore.AppUsageDao.DeleteByDate | app/src/main/java/com/sora/dopwatch/data/AppUsageDao.kt:18-19 | the rows dated d are removed and no other row is |
| UsageStore.AppUsageDao.GetTotalUsageByDate | app/src/main/java/com/sora/dopwatch/data/AppUsageDao.kt:21-22 | null exactly when no row is dated d; otherwise the sum of that date's usageTimeMs |
| UsageStore.AppUsageDao.ReplaceByDate | app/src/main/java/com/sora/dopwatch/data/AppUsageDao.kt:24-28 | delete the day, then insert the new rows, in one step; the key invariant is kept |
| Collections.Put | app/src/main/java/com/sora/dopwatch/data/UsageRepository.kt:63 | `m[k] = v` sets k's value and no other, keeps an existing key in place and appends a new key last |
| Collections.Remove | app/src/main/java/com/sora/dopwatch/data/UsageRepository.kt:67 | `m.remove(k)` removes k's entry only, and the remaining keys keep their order: with k at position i, the keys are those before i followed by those after it; removing an absent key changes nothing |
| Collections.WithoutConcat | app/src/main/java/com/sora/dopwatch/data/UsageRepository.kt:67 | dropping a key from a concatenation of key lists drops it from each part, so the order of the other keys is kept |
| Collections.WithoutAt | app/src/main/java/com/sora/dopwatch/data/UsageRepository.kt:67 | in a list of distinct keys, dropping the key at position i leaves the keys before i followed by the keys after i |
| Collections.SortDesc | app/src/main/java/com/sora/dopwatch/data/UsageRepository.kt:103 | `sortedByDescending` gives a non-increasing permutation of its input |
| Collections.SortDescDistinct | app/src/main/java/com/sora/dopwatch/data/UsageRepository.kt:103 | sorting keeps distinct packages distinct |
| Collections.SortDescSum | app/src/main/java/com/sora/dopwatch/ui/dashboard/DashboardViewModel.kt:55 | sorting does not change a `sumOf` |
| UsageRepo.AddUsage | app/src/main/java/com/sora/dopwatch/data/UsageRepository.kt:69-72 | a positive duration is added to the package's total, an absent total counting as 0; a non-positive one changes nothing; other packages are untouched |
| UsageRepo.Step | app/src/main/java/com/sora/dopwatch/data/UsageRepository.kt:57-75 | RESUMED sets the open start to the timestamp, overwriting any earlier one; PAUSED always clears it and, if there was a start, adds the positive part of the duration; an unmatched PAUSED or any other event leaves both maps unchanged; other packages are untouched |
| UsageRepo.CloseOpenStep | app/src/main/java/com/sora/dopwatch/data/UsageRepository.kt:79-84 | one turn of the loop over still-open packages charges only the package it visits, by the positive part of (end - start) |
| UsageRepo.ChargedAfterStep | app/src/main/java/com/sora/dopwatch/data/UsageRepository.kt:79-84 | if after j - 1 turns each package holds its stored total plus its open stretch when already visited, the same holds after j turns |
| UsageRepo.CloseOpenPerPackage | app/src/main/java/com/sora/dopwatch/data/UsageRepository.kt:79-84 | the loop over still-open packages adds, to each package it has reached, the positive part of (end - start) |
| UsageRepo.FoldIsPerPackage | app/src/main/java/com/sora/dopwatch/data/UsageRepository.kt:56-76 | after the event loop, each package's open start and total are what reading that package's events alone gives |
| UsageRepo.TotalsArePerPackage | app/src/main/java/com/sora/dopwatch/data/UsageRepository.kt:56-84 | each package's final total is its closed sessions plus its open session cut at end |
| UsageRepo.TotalsPositive | app/src/main/java/com/sora/dopwatch/data/UsageRepository.kt:68-84 | every total in the map is positive, because only positive durations are added |
| UsageRepo.Kept | app/src/main/java/com/sora/dopwatch/data/UsageRepository.kt:87-102 | every kept record's total is over 60,000 ms, its appName is the label or the package name, and a package's total over 60,000 ms is always kept |
| UsageRepo.KeptDistinct | app/src/main/java/com/sora/dopwatch/data/UsageRepository.kt:87-102 | the filter-and-map keeps each package at most once |
| UsageRepo.TodayUsageContents | app/src/main/java/com/sora/dopwatch/data/UsageRepository.kt:87-103 | a record is in the result exactly when its package's total is over 60,000 ms, and it carries that total and the label or the package name |
| UsageRepo.TodayUsageSortedDistinct | app/src/main/java/com/sora/dopwatch/data/UsageRepository.kt:87-103 | the result is in non-increasing usage order and names each package at most once |
| UsageRepo.SessionsInWindow | app/src/main/java/com/sora/dopwatch/data/UsageRepository.kt:56-76 | with time-ordered events from start on, the credited time and any open start stay within the events' span |
| UsageRepo.TotalWithinWindow | app/src/main/java/com/sora/dopwatch/data/UsageRepository.kt:40-84 | with time-ordered events between midnight and now, each package's total is between 0 and now - midnight |
| UsageRepo.OpenSessionRunsToEnd | app/src/main/java/com/sora/dopwatch/data/UsageRepository.kt:79-84 | `[RESUMED(A, 0)]` at end 120,000 lists A with 120,000 ms |
| UsageRepo.LaterResumeWins | app/src/main/java/com/sora/dopwatch/data/UsageRepository.kt:61-64 | a second RESUMED overwrites the first, so the abandoned session counts for nothing |
| UsageRepo.NoiseFloorIsStrict | app/src/main/java/com/sora/dopwatch/data/UsageRepository.kt:88 | a 60,000 ms session is dropped and a 60,001 ms one is kept |
| UsageRepo.Stamped | app/src/main/java/com/sora/dopwatch/data/UsageRepository.kt:108-115 | each entity has the info's package, name and time and today's date, in the same order |
| UsageRepo.StampedTotal | app/src/main/java/com/sora/dopwatch/data/UsageRepository.kt:108-115 | stamping keeps the sum of usage times |
| UsageRepo.RefreshStoresToday | app/src/main/java/com/sora/dopwatch/data/UsageRepository.kt:106-117 | after `refreshAndSave` the rows dated today are exactly today's listing, stamped with the date, in listing order |
| UsageRepo.RefreshReplacesToday | app/src/main/java/com/sora/dopwatch/data/UsageRepository.kt:106-117 | after `refreshAndSave` the rows dated today are exactly today's stamped listing, and every other date's rows are as they were |
| UsageRepo.RefreshedTotal | app/src/main/java/com/sora/dopwatch/data/UsageRepository.kt:106-125 | after `refreshAndSave` the stored total for today is the sum of today's listing |
| UsageRepo.UsageRepository.constructor | app/src/main/java/com/sora/dopwatch/data/UsageRepository.kt:26 | the repository wraps the given DAO |
| UsageRepo.UsageRepository.HandleEvent | app/src/main/java/com/sora/dopwatch/data/UsageRepository.kt:57-75 | the in-place map updates for one event are the step above |
| UsageRepo.UsageRepository.ReadEvents | app/src/main/java/com/sora/dopwatch/data/UsageRepository.kt:52-76 | the `while` loop builds the two maps the fold describes |
| UsageRepo.UsageRepository.CloseSessions | app/src/main/java/com/sora/dopwatch/data/UsageRepository.kt:79-84 | the `for` loop charges every still-open package up to end |
| UsageRepo.UsageRepository.QueryTodayUsage | app/src/main/java/com/sora/dopwatch/data/UsageRepository.kt:38-104 | the result is today's listing: sorted, distinct, each record over the 60,000 ms floor with its package's per-package total |
| UsageRepo.UsageRepository.RefreshAndSave | app/src/main/java/com/sora/dopwatch/data/UsageRepository.kt:106-117 | the DAO's rows become the old rows with today replaced by today's stamped listing |
| UsageRepo.UsageRepository.GetTodayUsage | app/src/main/java/com/sora/dopwatch/data/UsageRepository.kt:119-121 | the first value of the flow is today's ordered listing |
| UsageRepo.UsageRepository.GetTodayTotalMs | app/src/main/java/com/sora/dopwatch/data/UsageRepository.kt:123-125 | the stored sum for today, and 0 when there are no rows for today |
| Thresholds.WithLimits | app/src/main/java/com/sora/dopwatch/domain/ThresholdConfig.kt:3-23 | a config built from three limits keeps them and the default package sets |
| Thresholds.DefaultLimits | app/src/main/java/com/sora/dopwatch/domain/ThresholdConfig.kt:4-22 | the default total limit is 10,800,000 ms; the SNS and video limits are 3,600,000 ms each |
| Thresholds.DefaultCategorySizes | app/src/main/java/com/sora/dopwatch/domain/ThresholdConfig.kt:6-21 | seven SNS packages, LINE among them, and five video packages |
| Thresholds.DefaultCategoriesDisjoint | app/src/main/java/com/sora/dopwatch/domain/ThresholdConfig.kt:6-21 | no package is both SNS and video |
| CheckUsage.InPackages | app/src/main/java/com/sora/dopwatch/domain/CheckUsageUseCase.kt:38 | every usage in the result has its package in the set, every such usage is in the result, and the result is no longer than the input |
| CheckUsage.InPackagesConcat | app/src/main/java/com/sora/dopwatch/domain/CheckUsageUseCase.kt:38 | filtering a concatenation gives the concatenation of the filtered parts |
| CheckUsage.InPackagesSingle | app/src/main/java/com/sora/dopwatch/domain/CheckUsageUseCase.kt:38 | a single usage is kept exactly when its package is in the set; with `InPackagesConcat`, the result is the input's matching usages in input order, repeats included |
| CheckUsage.AlertForShape | app/src/main/java/com/sora/dopwatch/domain/CheckUsageUseCase.kt:24-63 | each type yields one alert exactly when its sum is strictly over its limit; the alert carries the type, the sum, the limit and the type's app list |
| CheckUsage.EvaluateOrdered | app/src/main/java/com/sora/dopwatch/domain/CheckUsageUseCase.kt:21-66 | at most three alerts, in strictly increasing TOTAL, SNS, VIDEO order; each carries its type's sum, limit and apps, with current > limit |
| CheckUsage.EvaluatePresence | app/src/main/java/com/sora/dopwatch/domain/CheckUsageUseCase.kt:25-63 | an alert of a type is present exactly when that type's sum is strictly greater than its limit |
| CheckUsage.TotalTopApps | app/src/main/java/com/sora/dopwatch/domain/CheckUsageUseCase.kt:32 | TOTAL lists the first min(5, n) usages in input order |
| CheckUsage.InPackagesNonNegative | app/src/main/java/com/sora/dopwatch/domain/CheckUsageUseCase.kt:38-39 | a category's sum of non-negative usages is non-negative |
| CheckUsage.CategoriesWithinTotal | app/src/main/java/com/sora/dopwatch/domain/CheckUsageUseCase.kt:25-53 | with disjoint categories and non-negative usages, SNS plus video time stays within the total |
| CheckUsage.Check | app/src/main/java/com/sora/dopwatch/domain/CheckUsageUseCase.kt:21-66 | the three appends in turn give the alert list described above |
| CheckUsage.FormatDurationFields | app/src/main/java/com/sora/dopwatch/domain/CheckUsageUseCase.kt:68-72 | for ms >= 0 the text is "{h}h{m}m" when h > 0, else "{m}m"; h and m are the whole hours and 0..59 minutes of ms |
| CheckUsage.ReadRendered | app/src/main/java/com/sora/dopwatch/domain/CheckUsageUseCase.kt:71 | either shape of the text reads back as hours * 60 + minutes |
| CheckUsage.FormatDurationRoundTrip | app/src/main/java/com/sora/dopwatch/domain/CheckUsageUseCase.kt:68-72 | reading the text back gives ms / 60,000: only the seconds are lost |
| CheckUsage.FormatDurationNoNewline | app/src/main/java/com/sora/dopwatch/domain/CheckUsageUseCase.kt:68-72 | the text is a single line |
| CheckUsage.AlertMessageLines | app/src/main/java/com/sora/dopwatch/domain/CheckUsageUseCase.kt:74-94 | the message's lines are the six header lines (type label, current, limit) followed by one "  name: duration" line per top app, in order |
| CheckUsage.TemplateTrimmed | app/src/main/java/com/sora/dopwatch/domain/CheckUsageUseCase.kt:85-93 | `trimMargin` of the template after substitution keeps the fixed lines and the value's first line and strips a margin from each later line of the value |
| CheckUsage.TemplateAgrees | app/src/main/java/com/sora/dopwatch/domain/CheckUsageUseCase.kt:85-93 | when no later line of the substituted value starts, after blanks, with '\|', the template gives the intended text |
| CheckUsage.TemplateDiffers | app/src/main/java/com/sora/dopwatch/domain/CheckUsageUseCase.kt:85-93 | when a later line of the value does start that way, the template's result differs from the intended text |
| CheckUsage.TemplateSplitsBrokenValue | app/src/main/java/com/sora/dopwatch/domain/CheckUsageUseCase.kt:85-93 | a substituted value holding a line break followed by '\|' ("  a\n\|b") also makes `trimMargin`'s text differ from the intended one |
| CheckUsage.AsWrittenAgrees | app/src/main/java/com/sora/dopwatch/domain/CheckUsageUseCase.kt:85-93 | when no app label contains '\n' and no app line after the first begins, past its blanks, with '\|', `buildAlertMessage` as written gives the intended message |
| CheckUsage.AsWrittenAgreesWithoutApps | app/src/main/java/com/sora/dopwatch/domain/CheckUsageUseCase.kt:85-93 | with no apps, `buildAlertMessage` as written gives the intended message |
| CheckUsage.AsWrittenStripsBarredName | app/src/main/java/com/sora/dopwatch/domain/CheckUsageUseCase.kt:85-93 | a second app whose name starts with '\|' makes `buildAlertMessage` as written differ from the intended message |
| CheckUsage.FollowUpMessageLines | app/src/main/java/com/sora/dopwatch/domain/CheckUsageUseCase.kt:96-112 | the follow-up's lines are the title naming the alert number, the subtitle, a blank line, then one icon/label line per alert in order |
| Text.Quot | app/src/main/java/com/sora/dopwatch/domain/CheckUsageUseCase.kt:69 | `Long` division truncates toward zero |
| Text.Rem | app/src/main/java/com/sora/dopwatch/domain/CheckUsageUseCase.kt:70 | `Long` remainder takes the dividend's sign, and a == b * (a / b) + a % b |
| Text.LongToString | app/src/main/java/com/sora/dopwatch/domain/CheckUsageUseCase.kt:71 | a number prints as its decimal digits, with a minus sign when negative |
| Text.DigitsValueOfNatToString | app/src/main/java/com/sora/dopwatch/domain/CheckUsageUseCase.kt:71 | printed digits read back as the number |
| Text.Lines | app/src/main/java/com/sora/dopwatch/worker/UsageCheckWorker.kt:133 | `lines()` gives at least one line, none containing a newline |
| Text.LinesOfJoin | app/src/main/java/com/sora/dopwatch/domain/CheckUsageUseCase.kt:82-84 | splitting a newline join of newline-free lines gives the lines back |
| Text.TrimMarginBetweenBlanks | app/src/main/java/com/sora/dopwatch/domain/CheckUsageUseCase.kt:85-93 | `trimMargin` drops a blank first and last line and strips each line between |
| SettingsStore.EmptyReadsAsDefaults | app/src/main/java/com/sora/dopwatch/data/SettingsRepository.kt:40-54 | with no keys stored, the snapshot is the default `Settings()` |
| SettingsStore.MissingKeysReadAsDefaults | app/src/main/java/com/sora/dopwatch/data/SettingsRepository.kt:40-54 | each missing key reads as its default: "" or "screentime", 10,800,000, 3,600,000, 3 and 120, whatever the other keys hold |
| SettingsStore.CooldownMs | app/src/main/java/com/sora/dopwatch/data/SettingsRepository.kt:132 | a non-negative cooldown in minutes gives whole minutes in milliseconds |
| SettingsStore.DefaultCooldown | app/src/main/java/com/sora/dopwatch/data/SettingsRepository.kt:127-132 | the default cooldown is 7,200,000 ms |
| SettingsStore.GetThresholdConfig | app/src/main/java/com/sora/dopwatch/data/SettingsRepository.kt:107-113 | the three limits are copied and the package sets stay at their defaults |
| SettingsStore.DefaultSettingsGiveDefaultThresholds | app/src/main/java/com/sora/dopwatch/data/SettingsRepository.kt:107-113 | an unconfigured app checks against the default thresholds |
| SettingsStore.LineConfigWritten | app/src/main/java/com/sora/dopwatch/data/SettingsRepository.kt:58-63 | `updateLineConfig` writes the two LINE keys and leaves every other key as it was |
| SettingsStore.BeeminderConfigWritten | app/src/main/java/com/sora/dopwatch/data/SettingsRepository.kt:65-71 | `updateBeeminderConfig` writes the three Beeminder keys and leaves every other key as it was |
| SettingsStore.ThresholdsWritten | app/src/main/java/com/sora/dopwatch/data/SettingsRepository.kt:73-79 | `updateThresholds` writes the three limit keys and leaves every other key as it was |
| SettingsStore.DriveFileIdWritten | app/src/main/java/com/sora/dopwatch/data/SettingsRepository.kt:81-85 | `updateDriveFileId` writes the Drive key and leaves every other key as it was |
| SettingsStore.PutIfPresent | app/src/main/java/com/sora/dopwatch/data/SettingsRepository.kt:98-103 | `?.let { prefs[key] = it }` writes only when the field is present |
| SettingsStore.RemoteConfigApplied | app/src/main/java/com/sora/dopwatch/data/SettingsRepository.kt:87-105 | for each of the five fields (total, SNS and video limits, alerts per day, cooldown), a present value overwrites its key and an absent one leaves the key as it was, present or not; the string entries and every other key stay as they were |
| SettingsStore.ReadAfterLineConfig | app/src/main/java/com/sora/dopwatch/data/SettingsRepository.kt:58-63 | afterwards the snapshot has the new token and group id and is otherwise unchanged; LINE counts as configured exactly when both are non-blank |
| SettingsStore.ReadAfterBeeminderConfig | app/src/main/java/com/sora/dopwatch/data/SettingsRepository.kt:65-71 | afterwards the snapshot has the new user, token and goal and is otherwise unchanged |
| SettingsStore.ReadAfterThresholds | app/src/main/java/com/sora/dopwatch/data/SettingsRepository.kt:73-79 | afterwards the snapshot has the new limits and is otherwise unchanged, and the threshold config carries them |
| SettingsStore.ReadAfterDriveFileId | app/src/main/java/com/sora/dopwatch/data/SettingsRepository.kt:81-85 | afterwards the snapshot has the new file id and is otherwise unchanged |
| SettingsStore.ReadAfterRemoteConfig | app/src/main/java/com/sora/dopwatch/data/SettingsRepository.kt:87-105 | afterwards each snapshot field is the remote value when present and the old value otherwise |
| SettingsStore.EmptyRemoteConfigChangesNothing | app/src/main/java/com/sora/dopwatch/data/SettingsRepository.kt:87-105 | a remote file with no fields writes nothing |
| SettingsStore.BeeminderGoalIrrelevant | app/src/main/java/com/sora/dopwatch/data/SettingsRepository.kt:130 | whether Beeminder counts as configured does not depend on the goal slug |
| SettingsStore.SettingsRepository.constructor | app/src/main/java/com/sora/dopwatch/data/SettingsRepository.kt:40-54 | a new store holds no keys |
| SettingsStore.SettingsRepository.GetSettings | app/src/main/java/com/sora/dopwatch/data/SettingsRepository.kt:56 | the result is the defaulted snapshot of the current preferences |
| SettingsStore.SettingsRepository.UpdateLineConfig | app/src/main/java/com/sora/dopwatch/data/SettingsRepository.kt:58-63 | the preferences become the LINE write of the old ones |
| SettingsStore.SettingsRepository.UpdateBeeminderConfig | app/src/main/java/com/sora/dopwatch/data/SettingsRepository.kt:65-71 | the preferences become the Beeminder write of the old ones |
| SettingsStore.SettingsRepository.UpdateThresholds | app/src/main/java/com/sora/dopwatch/data/SettingsRepository.kt:73-79 | the preferences become the limits write of the old ones |
| SettingsStore.SettingsRepository.UpdateDriveFileId | app/src/main/java/com/sora/dopwatch/data/SettingsRepository.kt:81-85 | the preferences become the Drive write of the old ones |
| SettingsStore.SettingsRepository.ApplyRemoteConfig | app/src/main/java/com/sora/dopwatch/data/SettingsRepository.kt:87-105 | five conditional writes in turn give the remote-config write of the old preferences |
| Worker.SlotWindows | app/src/main/java/com/sora/dopwatch/worker/UsageCheckWorker.kt:143-148 | hours 9..11 select the morning slot, 21..23 the night slot, and any other hour selects none |
| Worker.Incremented | app/src/main/java/com/sora/dopwatch/worker/UsageCheckWorker.kt:182-188 | today's counter, 0 when absent, rises by one; no other counter or flag changes |
| Worker.NotificationsOnly | app/src/main/java/com/sora/dopwatch/worker/UsageCheckWorker.kt:81-85 | the alert loop posts only notifications: one per alert with permission, none without |
| Worker.NotificationsPerAlert | app/src/main/java/com/sora/dopwatch/worker/UsageCheckWorker.kt:82-84 | with permission, the k-th notification is tagged with the k-th alert's type name and shows that alert's corrected message, its first line as the content text |
| Worker.SentAsWritten | app/src/main/java/com/sora/dopwatch/worker/UsageCheckWorker.kt:82-94 | when the alert lists no apps, or no app label contains '\n' and no app line after the first begins with a margin, the notification and the push the model sends for an alert carry exactly the text `buildAlertMessage` returns as written |
| Worker.HeartbeatStepShape | app/src/main/java/com/sora/dopwatch/worker/UsageCheckWorker.kt:59-61 | the heartbeat step sends at most one heartbeat and never touches the alert counters |
| Worker.HeartbeatQuiet | app/src/main/java/com/sora/dopwatch/worker/UsageCheckWorker.kt:142-153 | outside both windows, or once this slot's flag is set today, nothing is sent and nothing changes |
| Worker.HeartbeatSends | app/src/main/java/com/sora/dopwatch/worker/UsageCheckWorker.kt:150-167 | inside a window with the flag unset, one heartbeat is sent; the slot's flag becomes set exactly when the send succeeded; nothing else changes |
| Worker.HeartbeatRetriedUntilSent | app/src/main/java/com/sora/dopwatch/worker/UsageCheckWorker.kt:162-171 | a later tick in the same window sends again exactly when the first send failed |
| Worker.PushesOnlyAtEnd | app/src/main/java/com/sora/dopwatch/worker/UsageCheckWorker.kt:58-99 | when the heartbeat, Beeminder and notification parts of a tick hold no alert push, the tick pushes exactly as often as its last part does |
| Worker.RespondPushCount | app/src/main/java/com/sora/dopwatch/worker/UsageCheckWorker.kt:88-99 | a tick pushes one alert when LINE is configured and the counter allows it, and none otherwise |
| Worker.RespondCounters | app/src/main/java/com/sora/dopwatch/worker/UsageCheckWorker.kt:88-99 | a push happens only below the cap; today's counter rises by one exactly when the tick pushes, sent or not; other counters stay |
| Worker.RespondCountsPushes | app/src/main/java/com/sora/dopwatch/worker/UsageCheckWorker.kt:88-99 | at most one push per tick, only below the cap, and today's counter rises by the number of pushes |
| Worker.TickCountsPushes | app/src/main/java/com/sora/dopwatch/worker/UsageCheckWorker.kt:48-106 | the same for a whole tick of `doWork` |
| Worker.DailyPushCap | app/src/main/java/com/sora/dopwatch/worker/UsageCheckWorker.kt:174-188 | over any run of one day's ticks, today's counter equals its start plus the pushes and never passes 3 |
| Worker.AtMostThreePushesPerDay | app/src/main/java/com/sora/dopwatch/worker/UsageCheckWorker.kt:43 | a day whose counter starts at zero sees at most three LINE alert pushes, however many ticks run |
| Worker.SendResultsIgnored | app/src/main/java/com/sora/dopwatch/worker/UsageCheckWorker.kt:64-99 | the results of the Beeminder call and the alert push change nothing: they are only logged |
| Worker.NoAlertsNoNotifications | app/src/main/java/com/sora/dopwatch/worker/UsageCheckWorker.kt:58-78 | with no alerts the tick ends after the heartbeat and Beeminder steps: no notification, no push, counter unchanged |
| Worker.AlertsNotifiedThenPushed | app/src/main/java/com/sora/dopwatch/worker/UsageCheckWorker.kt:80-99 | with alerts, every alert is notified, and the first alert's corrected message is pushed exactly when LINE is configured and the counter allows |
| Worker.RespondLineGated | app/src/main/java/com/sora/dopwatch/worker/UsageCheckWorker.kt:59-99 | without LINE settings no LINE message is sent and the worker's preferences stay as they were |
| Worker.LineGated | app/src/main/java/com/sora/dopwatch/worker/UsageCheckWorker.kt:59-99 | the same for a whole tick |
| Worker.RespondBeeminderGated | app/src/main/java/com/sora/dopwatch/worker/UsageCheckWorker.kt:64-74 | without Beeminder settings no datapoint is posted |
| Worker.BeeminderGated | app/src/main/java/com/sora/dopwatch/worker/UsageCheckWorker.kt:64-74 | the same for a whole tick |
| Worker.UsageCheckWorker.constructor | app/src/main/java/com/sora/dopwatch/worker/UsageCheckWorker.kt:40-42 | a worker on a fresh install has empty preferences and has sent nothing; on later runs the SharedPreferences survive from earlier workers, which the model's methods carry over in `prefs` |
| Worker.UsageCheckWorker.SendHeartbeatIfNeeded | app/src/main/java/com/sora/dopwatch/worker/UsageCheckWorker.kt:142-172 | the preferences and the send log change as the heartbeat function says |
| Worker.UsageCheckWorker.CanSendLineAlert | app/src/main/java/com/sora/dopwatch/worker/UsageCheckWorker.kt:174-180 | true exactly when today's counter, 0 when absent, is below 3 |
| Worker.UsageCheckWorker.IncrementLineAlertCount | app/src/main/java/com/sora/dopwatch/worker/UsageCheckWorker.kt:182-188 | today's counter rises by one, nothing is sent |
| Worker.UsageCheckWorker.ShowNotification | app/src/main/java/com/sora/dopwatch/worker/UsageCheckWorker.kt:122-140 | without the permission nothing is posted; with it, one notification with the message's first line as content text |
| Worker.UsageCheckWorker.Notify | app/src/main/java/com/sora/dopwatch/worker/UsageCheckWorker.kt:81-85 | the `forEach` posts the notifications of all alerts, in order, each with the alert's corrected message |
| Worker.UsageCheckWorker.Announce | app/src/main/java/com/sora/dopwatch/worker/UsageCheckWorker.kt:58-74 | the heartbeat when LINE is configured, then the datapoint when Beeminder is configured |
| Worker.UsageCheckWorker.Deliver | app/src/main/java/com/sora/dopwatch/worker/UsageCheckWorker.kt:58-101 | once the reads are done, the preferences and the log change as one tick says |
| Worker.UsageCheckWorker.DoWork | app/src/main/java/com/sora/dopwatch/worker/UsageCheckWorker.kt:48-106 | today's rows are replaced by the first usage read unless the refresh throws; a throw at any read gives retry and sends nothing; otherwise success, with the tick checking the second read's listing against the settings and reporting the stored total of the first |
| Dashboard.InitialDefaults | app/src/main/java/com/sora/dopwatch/ui/dashboard/DashboardViewModel.kt:17-24 | the initial state has no usages, total 0, limit 10,800,000 (the settings default), loading on, no permission, battery optimisation on, no refresh running |
| Dashboard.RefreshSingleFlight | app/src/main/java/com/sora/dopwatch/ui/dashboard/DashboardViewModel.kt:47-50 | refreshing while a refresh runs changes nothing; otherwise a refresh starts and shows as loading |
| Dashboard.PermissionStartsRefreshIff | app/src/main/java/com/sora/dopwatch/ui/dashboard/DashboardViewModel.kt:37-41 | the flag is always stored; a refresh starts exactly when it turns from false to true while none runs |
| Dashboard.PermissionIdempotent | app/src/main/java/com/sora/dopwatch/ui/dashboard/DashboardViewModel.kt:37-41 | setting the same permission twice is the same as setting it once |
| Dashboard.SettersKeepData | app/src/main/java/com/sora/dopwatch/ui/dashboard/DashboardViewModel.kt:37-45 | neither setter touches the listing, the totals or the other flag; `setBatteryOptimized` changes only its own flag |
| Dashboard.SettersCommute | app/src/main/java/com/sora/dopwatch/ui/dashboard/DashboardViewModel.kt:37-45 | the two setters commute |
| Dashboard.FailedKeepsData | app/src/main/java/com/sora/dopwatch/ui/dashboard/DashboardViewModel.kt:62-64 | a failed refresh turns loading off, ends the job and keeps the shown data and flags |
| Dashboard.CompletedShowsSavedDay | app/src/main/java/com/sora/dopwatch/ui/dashboard/DashboardViewModel.kt:51-61 | a successful refresh shows exactly today's saved rows, longest first, with total the sum of today's listing and the configured limit; loading off; flags kept |
| Dashboard.FirstGrantLoads | app/src/main/java/com/sora/dopwatch/ui/dashboard/DashboardViewModel.kt:37-61 | on first launch, granting the permission starts a refresh, and its completion ends the loading state |
| Dashboard.FormatDurationFields | app/src/main/java/com/sora/dopwatch/ui/dashboard/DashboardViewModel.kt:68-72 | for ms >= 0 the text is "{h}h {m}m" when h > 0, else "{m}m", with m in 0..59 |
| Dashboard.ReadSpaced | app/src/main/java/com/sora/dopwatch/ui/dashboard/DashboardViewModel.kt:71 | either shape of the spaced text reads back as hours * 60 + minutes |
| Dashboard.FormatDurationRoundTrip | app/src/main/java/com/sora/dopwatch/ui/dashboard/DashboardViewModel.kt:68-72 | reading the spaced text back gives ms / 60,000 |
| Dashboard.FormatsAgreeIff | app/src/main/java/com/sora/dopwatch/ui/dashboard/DashboardViewModel.kt:68-72 | the dashboard and alert renderings are equal exactly when there is no whole hour |
| Dashboard.FormatsReadAlike | app/src/main/java/com/sora/dopwatch/ui/dashboard/DashboardViewModel.kt:68-72 | both renderings read back to the same minutes |
| Dashboard.DashboardViewModel.constructor | app/src/main/java/com/sora/dopwatch/ui/dashboard/DashboardViewModel.kt:27-35 | a new view model is in the initial state |
| Dashboard.DashboardViewModel.SetPermissionGranted | app/src/main/java/com/sora/dopwatch/ui/dashboard/DashboardViewModel.kt:37-41 | the state becomes the permission transition of the old state |
| Dashboard.DashboardViewModel.SetBatteryOptimized | app/src/main/java/com/sora/dopwatch/ui/dashboard/DashboardViewModel.kt:43-45 | the state becomes the battery transition of the old state |
| Dashboard.DashboardViewModel.RefreshUsage | app/src/main/java/com/sora/dopwatch/ui/dashboard/DashboardViewModel.kt:47-50 | the state becomes the refresh-start transition of the old state |
| Dashboard.DashboardViewModel.FinishRefresh | app/src/main/java/com/sora/dopwatch/ui/dashboard/DashboardViewModel.kt:51-64 | today's rows are replaced unless saving throws; a throw at any step gives the failed state; otherwise the completed state with today's stored rows and the current settings |
| Dashboard.DashboardViewModel.EndLoaded | app/src/main/java/com/sora/dopwatch/ui/dashboard/DashboardViewModel.kt:55-61 | the `copy` after a successful read |
| Dashboard.DashboardViewModel.EndFailed | app/src/main/java/com/sora/dopwatch/ui/dashboard/DashboardViewModel.kt:62-64 | the `copy` in the `catch` |
| LocalApi.DateParam | app/src/main/java/com/sora/dopwatch/api/LocalApiServer.kt:28 | the date is present exactly when the parameter has at least one value, and it is the first one |
| LocalApi.ServeStatus | app/src/main/java/com/sora/dopwatch/api/LocalApiServer.kt:16-29 | 405 exactly for a non-GET; 404 exactly for a GET to another path; 400 exactly for /api/usage without a date; 200 otherwise; errors are plain text and 200 is JSON |
| LocalApi.AppsListStoredRows | app/src/main/java/com/sora/dopwatch/api/LocalApiServer.kt:31-41 | one apps entry per stored row of the date, in the query's order, every such row listed, minutes non-increasing |
| LocalApi.AppsCoverRows | app/src/main/java/com/sora/dopwatch/api/LocalApiServer.kt:34-41 | every row has its entry in the array |
| LocalApi.AppsDescending | app/src/main/java/com/sora/dopwatch/api/LocalApiServer.kt:34-41 | rows longest first give entries in non-increasing minutes |
| LocalApi.OkListsStoredRows | app/src/main/java/com/sora/dopwatch/api/LocalApiServer.kt:27-49 | a 200 response echoes the requested date, lists the date's rows, and has totalMinutes = (sum of usageTimeMs) / 60,000 |
| LocalApi.MinutesMonotone | app/src/main/java/com/sora/dopwatch/api/LocalApiServer.kt:39 | truncated minutes never decrease as the duration grows |
| LocalApi.MinutesOfSum | app/src/main/java/com/sora/dopwatch/api/LocalApiServer.kt:32-39 | for non-negative rows, the per-row minutes are at most the sum in milliseconds, and each row loses less than a minute |
| LocalApi.QuotBetween | app/src/main/java/com/sora/dopwatch/api/LocalApiServer.kt:32 | a non-negative sum between two whole-minute bounds divides to a value between them |
| LocalApi.TotalMinutesBounds | app/src/main/java/com/sora/dopwatch/api/LocalApiServer.kt:32-45 | totalMinutes is at least the sum of the per-app minutes and at most that sum plus one less than the number of apps (0 with no apps) |
| LocalApi.LocalApiServer.constructor | app/src/main/java/com/sora/dopwatch/api/LocalApiServer.kt:12-14 | the server reads the given DAO |
| LocalApi.LocalApiServer.Serve | app/src/main/java/com/sora/dopwatch/api/LocalApiServer.kt:16-25 | the response is the routing function's for the current rows |
| LocalApi.LocalApiServer.AppsArray | app/src/main/java/com/sora/dopwatch/api/LocalApiServer.kt:34-41 | the loop builds one entry per row, in order |
| LocalApi.LocalApiServer.HandleUsage | app/src/main/java/com/sora/dopwatch/api/LocalApiServer.kt:27-50 | the response is the `/api/usage` function's for the current rows |

## Findings

| source | as written | input that shows it | evidently intended | confidence | as-written member | corrected member |
|---|---|---|---|---|---|---|
| app/src/main/java/com/sora/dopwatch/domain/CheckUsageUseCase.kt:85-93 | `trimMargin()` runs after the app list is substituted. Every line of the list after the first is also stripped of leading blanks and one '\|'. | An alert whose second top app has a label such as "\|Notes". Its line "  \|Notes: 5m" becomes "Notes: 5m". | The app list appears exactly as joined, one "  name: duration" line per app. | not executed | CheckUsage.BuildAlertMessageAsWritten, CheckUsage.AsWrittenStripsBarredName | CheckUsage.BuildAlertMessage, CheckUsage.AlertMessageLines |

The worker uses the corrected message, `CheckUsage.BuildAlertMessage`.
`CheckUsage.AsWrittenAgrees` and `CheckUsage.AsWrittenAgreesWithoutApps` show the two agree when the alert lists no apps, or when no app label contains '\n' and no later app line starts with a margin. A label holding a line break followed by '|' is enough to make them differ (`CheckUsage.TemplateSplitsBrokenValue`). `Worker.SentAsWritten` carries that over to the notification and the push. The members that send the message are listed under "## Left out".

## Left out

- I/O is not modelled: the Android event query, the package manager, the clock, SharedPreferences and DataStore files, notifications, LINE and Beeminder HTTP calls, and the remote config download. What they return is a parameter. What the app sends is a log of `Delivery` values.
- Concurrency is not modelled:
  - the refresh mutex;
  - coroutines, `runBlocking` and Room transactions, which are one step each in a sequential model.
  The dashboard's refresh job is a boolean. `DashboardViewModel.RefreshUsage` performs the job's first statement, which turns loading on. `FinishRefresh` performs the rest.
- Exceptions are modelled only at the reads that can throw. In `doWork` that is the refresh, the second usage query, the settings and the stored total (`getThresholdConfig` cannot throw); in the dashboard it is the save, the settings and the listing. The fault position is a parameter.
- Worker.UsageCheckWorker.DoWork: it is split into `Announce`, `Notify` and `Deliver`, and `queryTodayUsage` into `ReadEvents` and `CloseSessions`. The view model's job is modelled as `FinishRefresh`, `EndLoaded` and `EndFailed`, and `handleUsage` uses `AppsArray`. Each split is a method of its own, proved against the same function.
- Worker.AlertNotification: it shows the corrected alert text (`CheckUsage.BuildAlertMessage`), where the app sends the text after `trimMargin`. The two are proved equal (`Worker.SentAsWritten`) only when the alert lists no apps, or when no app label contains '\n' and no app line after the first begins, past its blanks, with '|'. They differ when a later app line begins with '|' (see "## Findings"), and also when a label contains a line break followed by '|': the break splits the label and `trimMargin` strips the margin of the part after it (`CheckUsage.TemplateSplitsBrokenValue`). Labels containing '\r' are covered under the `lines()` line below.
- Worker.PushOf: it pushes the corrected alert text rather than the app's `trimMargin` output, with the same gap as `Worker.AlertNotification`.
- Worker.UsageCheckWorker.Notify: it posts notifications from `Worker.AlertNotification`, so it shows the corrected text, with the same gap.
- Worker.UsageCheckWorker.Deliver: it notifies and pushes the corrected text, through `Worker.AlertNotification` and `Worker.PushOf`, with the same gap.
- Worker.UsageCheckWorker.DoWork: it delivers the corrected text through `Deliver`, with the same gap.
- Worker.NotificationsPerAlert: it states the corrected text of each notification, with the same gap.
- Worker.AlertsNotifiedThenPushed: it states the corrected text of the notifications and the push, with the same gap.
- Worker.UsageCheckWorker.DoWork: both usage reads get their own event stream and "now", but one label lookup (`labelOf`) serves both reads and the save.
- Kotlin `Long` overflow is not modelled. Integers are unbounded, and the sums and differences stay far below 2^63 for a day of milliseconds.
- Floating point is not modelled. The remote config's hours are taken as already-converted milliseconds (`RemoteConfig` carries `Option<int>`). Beeminder's `valueHours` is not computed: the datapoint carries the total in milliseconds.
- Collections.SortDesc: it is stable and insertion-based. For `ORDER BY usageTimeMs DESC`, SQL leaves the order of equal times unspecified, so the model takes insertion (rowid) order for ties.
- UsageStore.AppUsageDao: it holds the table as a sequence in insertion order rather than a map, so that a query's tie order is defined. The primary key is the invariant `KeysUnique`.
- `dao.getUsageListByDate` in LocalApiServer.kt does not exist in AppUsageDao.kt. It is modelled as the `getUsageByDate` query.
- JSON text, NanoHTTPD and the server port are not modelled: the response body is a record. `MIME_PLAINTEXT` is written as "text/plain".
- `lines()` is modelled as a split at '\n' only (`Text.Lines`). Kotlin's `lines()` also splits at "\r\n" and a lone '\r'. The app labels that alert messages embed come from the package manager and are not constrained, so for a label containing '\r' the model's first notification line and its `trimMargin` text can differ from the app's. Every other part of the messages is free of '\r'.
- The notification id `tag.hashCode()` is kept as the tag itself, which is the same up to the hash.
- `createNotificationChannel` and the Android version checks are not modelled. Permission is a parameter that counts only where the check applies.
- The settings `maxAlertsPerDay` and `cooldownMinutes`, and the `isDriveConfigured` snapshot, are modelled as values. None of them is read by the worker, as in the code.
- Worker.AtMostThreePushesPerDay: it is stated for any preferences whose counter for the day is zero. The general bound is `Worker.DailyPushCap`.
- LocalApi.TotalMinutesBounds: it is stated for rows with non-negative times, which are the only rows the app writes (`UsageRepo.TotalsPositive`). With negative rows, Kotlin's truncating division breaks the lower bound.
- The Compose screens, `SettingsViewModel`, app wiring, database building, the scheduling, and the HTTP clients' request formats are not part of this model.
