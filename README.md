# sub-tracker in Dafny

A model of the core of the sub-tracker API: the recurring-billing schedule of
a `Subscription`, the all-or-nothing bulk import with its ordered validator,
and the hourly sweep that sends a reminder for every subscription due soon.

- `Wrappers.dfy`: `Option`.
- `Calendar.dfy`: a small model of .NET `DateTime`. Values are a year,
  a month, a day and a time of day in 100-nanosecond ticks. It defines
  `Ticks` with the library's day-count formula, the order of
  instants, subtraction as a tick span, and `AddDays`, `AddMonths` and
  `AddYears`.
  - `AddMonths` and `AddYears` clamp the day to the length of the target
    month. That is the documented behaviour of the .NET library, which is
    not part of this repository; the model takes it as an assumption.
- `Subscriptions.dfy`: the `Subscription` entity.
  - Its billing step, the schedule `NextOccurrence`, and the loop
    `CalculateNextBillingDate` proved against that schedule.
  - The class with `Create`, `Update` and `IsDueSoon`.
  - `SubscriptionStore`, the `Subscriptions` table as a sequence of
    entities in row order.
- `Import.dfy`: the import endpoint.
  - The request item with its initialisers, the nine validation rules and
    `Validate`.
  - The error list and the entity built for each valid item.
  - `HandleAsync`, which validates every item and commits all of them or
    none.
- `Notifications.dfy`: the reminder job.
  - `CheckAndNotify` loads the active rows, keeps those due soon, calls the
    notifier once for each of them in load order, and counts the sends that
    returned and the sends that threw.
  - `Execute` runs one sweep per wake-up of the job, each over the store as
    it is at that wake-up, whatever happened to the sweeps before.

Stepping is sequential, so clamping accumulates: a monthly subscription
started on 31 January 2026, a common year, is billed on 28 February and then
on 28 March (in a leap year, 29 February and then 29 March).
`ClampingDrifts` states this for 2026.

`ImportEndpoint.cs:90` calls `Subscription.Deactivate`, which
`Subscription.cs` does not define. The import tests fix only that the stored
entity is inactive; the model has `Deactivate` clear `isActive` and, as an
assumption read from its argument, set `updatedAt` to the given instant.
Under a fixed clock that instant is the one `Create` already stored, so the
assumption changes no stored value.

Inputs that come from outside the code in these files are parameters:
- the clock (`utcNow`, `now`);
- the fresh `Guid` of each created entity (`id`, `newId(i)`);
- the names of the `SubscriptionCategory` enum members (`categoryNames`);
- for each wake-up of the job, the store it reads (`stores`), whether the
  store read throws, and the outcome of each call of the notifier (`Tick`).

## Model

| member | source | states |
|---|---|---|
| Calendar.AddDays | api/src/SubTracker.Api/Features/Subscriptions/Domain/Subscription.cs:92 | adding a positive number of days gives a strictly later instant with the same time of day |
| Calendar.AddDaysTicks | api/src/SubTracker.Api/Features/Subscriptions/Domain/Subscription.cs:92 | `AddDays(n)` adds exactly `n` days of ticks |
| Calendar.AddMonths | api/src/SubTracker.Api/Features/Subscriptions/Domain/Subscription.cs:93-96 | the result lies `n` calendar months on, its day is the old day clamped to the target month, the time of day is kept, and a positive `n` gives a later instant |
| Calendar.AddYears | api/src/SubTracker.Api/Features/Subscriptions/Domain/Subscription.cs:95 | same month `n` years on, the day clamped to the target month (29 February to 28 February), time of day kept, later for positive `n` |
| Calendar.AddYearsIsTwelveMonths | api/src/SubTracker.Api/Features/Subscriptions/Domain/Subscription.cs:95 | `AddYears(n)` is `AddMonths(12 n)` |
| Calendar.AfterIsLaterInTicks | api/src/SubTracker.Api/Features/Subscriptions/Domain/Subscription.cs:88 | the order `After` used by the loop guard is the order of `Ticks`, which is how `DateTime` values compare |
| Calendar.SameTicksIsSameDate | api/src/SubTracker.Api/Features/Subscriptions/ImportEndpoint.cs:137 | two instants have equal tick counts exactly when they are the same value, so `==` on `DateTime` is field equality |
| Subscriptions.Step | api/src/SubTracker.Api/Features/Subscriptions/Domain/Subscription.cs:90-97 | one billing step always moves strictly forward in time |
| Subscriptions.StepByCycle | api/src/SubTracker.Api/Features/Subscriptions/Domain/Subscription.cs:90-97 | Weekly adds exactly seven days of ticks. Monthly, Quarterly, Yearly and any other value move 1, 3, 12 and 1 calendar months on, clamping the day and keeping the time of day |
| Subscriptions.NextOccurrence | api/src/SubTracker.Api/Features/Subscriptions/Domain/Subscription.cs:87-99 | the schedule's date is strictly after now and not before the start. It is the start itself exactly when the start is after now, so a start equal to now is stepped at least once |
| Subscriptions.NextOccurrenceIsIterate | api/src/SubTracker.Api/Features/Subscriptions/Domain/Subscription.cs:87-99 | the schedule's date is the start stepped `StepCount` times |
| Subscriptions.EarlierIteratesNotAfter | api/src/SubTracker.Api/Features/Subscriptions/Domain/Subscription.cs:88 | every iterate before the `StepCount`-th is at or before now |
| Subscriptions.IterateMonotone | api/src/SubTracker.Api/Features/Subscriptions/Domain/Subscription.cs:90-97 | later iterates are never earlier than earlier ones |
| Subscriptions.NextOccurrenceIsLeast | api/src/SubTracker.Api/Features/Subscriptions/Domain/Subscription.cs:87-99 | minimality: no iterate of the start lies after now but before the schedule's date |
| Subscriptions.NextOccurrenceRecompute | api/src/SubTracker.Api/Features/Subscriptions/Domain/Subscription.cs:72 | recomputing from a date computed at an earlier instant gives the date computed from the start at the later instant |
| Subscriptions.MonthlyExample | api/tests/SubTracker.Api.Tests/Features/Subscriptions/SubscriptionTests.cs:40-61 | monthly from 2026-01-15 at 2026-02-06T12:00 gives 2026-02-15 |
| Subscriptions.WeeklyExample | api/tests/SubTracker.Api.Tests/Features/Subscriptions/SubscriptionTests.cs:64-85 | weekly from 2026-02-01 gives 2026-02-08 |
| Subscriptions.YearlyExample | api/tests/SubTracker.Api.Tests/Features/Subscriptions/SubscriptionTests.cs:88-109 | yearly from 2025-03-01 gives 2026-03-01 |
| Subscriptions.ClampingDrifts | api/src/SubTracker.Api/Features/Subscriptions/Domain/Subscription.cs:87-99 | two monthly steps from 31 January 2026 give 28 March, not 31 March |
| Subscriptions.Subscription.CalculateNextBillingDate | api/src/SubTracker.Api/Features/Subscriptions/Domain/Subscription.cs:82-100 | the loop terminates and returns an instant strictly after now, equal to the schedule `NextOccurrence` |
| Subscriptions.Subscription.Create | api/src/SubTracker.Api/Features/Subscriptions/Domain/Subscription.cs:22-50 | every argument is copied to its field, the next billing date is the schedule's date at now, the entity is active, and `createdAt` and `updatedAt` are both now |
| Subscriptions.Subscription.Update | api/src/SubTracker.Api/Features/Subscriptions/Domain/Subscription.cs:52-77 | every editable field takes its argument, the next billing date is recomputed from the new start and cycle at now, and `updatedAt` is now. Its `modifies` clause leaves `id` and `createdAt` untouched |
| Subscriptions.Subscription.SetDetails | api/src/SubTracker.Api/Features/Subscriptions/Domain/Subscription.cs:65-74 | the name, description, amount, currency, category, URL and reminder window take their arguments, and nothing else changes |
| Subscriptions.Subscription.Reschedule | api/src/SubTracker.Api/Features/Subscriptions/Domain/Subscription.cs:69-72 | the cycle and start date take their arguments and the next billing date is the new schedule's date at now |
| Subscriptions.Subscription.Deactivate | api/src/SubTracker.Api/Features/Subscriptions/ImportEndpoint.cs:89-90 | the entity becomes inactive and `updatedAt` becomes the given instant; nothing else changes |
| Subscriptions.DueSoon | api/src/SubTracker.Api/Features/Subscriptions/Domain/Subscription.cs:79-80 | the definition on the column values: active, and the span from now to the next billing date is at most the window in days. Its properties are `InactiveIsNeverDueSoon`, `OverdueIsDueSoon` and `DueSoonExample` |
| Subscriptions.Subscription.IsDueSoon | api/src/SubTracker.Api/Features/Subscriptions/Domain/Subscription.cs:79-80 | `DueSoon` of the entity's current values; `InactiveIsNeverDueSoon` and `OverdueIsDueSoon` state its properties on the entity, and `NotifiedIffIsDueSoon` ties it to the sweep |
| Subscriptions.InactiveIsNeverDueSoon | api/src/SubTracker.Api/Features/Subscriptions/Domain/Subscription.cs:79-80 | an inactive subscription is never due soon, whatever its dates |
| Subscriptions.OverdueIsDueSoon | api/src/SubTracker.Api/Features/Subscriptions/Domain/Subscription.cs:79-80 | the window has no lower bound: an active subscription whose billing date is at or before now is due soon, for any non-negative window |
| Subscriptions.DueSoonExample | api/tests/SubTracker.Api.Tests/Features/Subscriptions/SubscriptionTests.cs:155-195 | with a three-day window at 2026-02-06T12:00, a billing date of 2026-02-08 is due soon and one of 2026-02-16 is not |
| Import.IsWhiteSpace | api/src/SubTracker.Api/Features/Subscriptions/ImportEndpoint.cs:119 | `char.IsWhiteSpace`: the ASCII control spaces 9-13, space, U+0085, U+00A0 and the Unicode space, line and paragraph separators |
| Import.IsNullOrWhiteSpace | api/src/SubTracker.Api/Features/Subscriptions/ImportEndpoint.cs:119 | a (non-null) name is blank when every character is white space, so the empty name is blank; `DefaultItemHasNoName` uses it |
| Import.Utf16Length | api/src/SubTracker.Api/Features/Subscriptions/ImportEndpoint.cs:122 | `string.Length` counts at least one and at most two code units per character, and exactly one each when all lie in the basic plane |
| Import.ParseBillingCycle | api/src/SubTracker.Api/Features/Subscriptions/ImportEndpoint.cs:131 | a parsed billing cycle is one of the four named members, never the fallback value |
| Import.ParseCategory | api/src/SubTracker.Api/Features/Subscriptions/ImportEndpoint.cs:134 | a category parses exactly when it is one of the enum's names, and parses to that name |
| Import.ErrorFor | api/src/SubTracker.Api/Features/Subscriptions/ImportEndpoint.cs:119-144 | the error of each rule maps back to that rule's position |
| Import.Validate | api/src/SubTracker.Api/Features/Subscriptions/ImportEndpoint.cs:117-147 | the nine checks in source order, each returning its error; its properties are stated by `ValidateReportsFirstFailure` and the boundary lemmas below |
| Import.Message | api/src/SubTracker.Api/Features/Subscriptions/ImportEndpoint.cs:120-144 | the text each check returns, with the offending currency, cycle or category and the list of category names joined by ", "; `ImportErrorsExact` states that every error entry carries it |
| Import.ValidateReportsFirstFailure | api/src/SubTracker.Api/Features/Subscriptions/ImportEndpoint.cs:117-147 | `Validate` reports nothing exactly when the item breaks none of the nine rules. Otherwise it reports the error of a rule the item breaks, and the item breaks no earlier rule in the fixed order |
| Import.CollectSound | api/src/SubTracker.Api/Features/Subscriptions/ImportEndpoint.cs:64-73 | every error entry names an invalid item, carries that item's message, and the indices strictly increase |
| Import.CollectComplete | api/src/SubTracker.Api/Features/Subscriptions/ImportEndpoint.cs:64-73 | every invalid item has an error entry with its index |
| Import.CollectEmptyIffNoErrors | api/src/SubTracker.Api/Features/Subscriptions/ImportEndpoint.cs:64-73 | the error list is empty exactly when every item is valid |
| Import.ImportErrorsExact | api/src/SubTracker.Api/Features/Subscriptions/ImportEndpoint.cs:64-73 | the response's error list holds exactly one entry per invalid item, in index order, each with the message of the item's first failing rule. It is empty exactly when all items are valid |
| Import.DefaultItemHasNoName | api/src/SubTracker.Api/Features/Subscriptions/ImportEndpoint.cs:15-27 | an item left at all its initialisers is refused for its empty name |
| Import.DefaultsAreAccepted | api/src/SubTracker.Api/Features/Subscriptions/ImportEndpoint.cs:15-27 | the default currency, cycle, category and reminder window pass their checks |
| Import.ReminderWindowDecides | api/src/SubTracker.Api/Features/Subscriptions/ImportEndpoint.cs:143-144 | once the earlier rules pass, the item is refused exactly when the window lies outside 0..30 days |
| Import.ReminderDaysBoundaries | api/src/SubTracker.Api/Features/Subscriptions/ImportEndpoint.cs:143-144 | windows of -1 and 31 days are refused; 0 and 30 days are accepted |
| Import.StartDateDecides | api/src/SubTracker.Api/Features/Subscriptions/ImportEndpoint.cs:137-141 | once the earlier rules pass, a non-default start date is refused exactly when it is later than one year from now |
| Import.StartDateBoundary | api/src/SubTracker.Api/Features/Subscriptions/ImportEndpoint.cs:140-141 | a start one year and one day from now is refused; one exactly a year on is accepted |
| Import.ImportedEntity | api/src/SubTracker.Api/Features/Subscriptions/ImportEndpoint.cs:76-90 | the column values of the entity built from an item: its fields, the parsed cycle and category, the schedule's date at now as next billing date, the item's active flag, and now as both timestamps; `ValidItemIsImported` states that every valid item has one |
| Import.ValidItemIsImported | api/src/SubTracker.Api/Features/Subscriptions/ImportEndpoint.cs:76-90 | a valid item yields an entity with its identifier, name, start and active flag, stamped with now, and billed next at the first schedule date after now |
| Import.NewSubscription | api/src/SubTracker.Api/Features/Subscriptions/ImportEndpoint.cs:76-92 | `Create` on the parsed cycle and category, then `Deactivate` when the item is inactive, yields a fresh entity whose fields are `ImportedEntity` of the item |
| Import.ValidateAll | api/src/SubTracker.Api/Features/Subscriptions/ImportEndpoint.cs:60-93 | the first pass returns exactly the response's error list. When that list is empty, it has built one fresh entity per item, in order, each equal to the item's `ImportedEntity` |
| Import.HandleAsync | api/src/SubTracker.Api/Features/Subscriptions/ImportEndpoint.cs:58-115 | with any invalid item, the response has those errors and 0 imported, and the store is unchanged. Otherwise there are no errors, `imported` is the item count, and the store is the old rows followed by one fresh entity per item. An empty request imports 0 with no errors |
| Notifications.FilterCounts | api/src/SubTracker.Api/Features/Notifications/CheckDueSubscriptionsJob.cs:52-56 | `Where` keeps each occurrence of a passing row and nothing else |
| Notifications.FilterMembers | api/src/SubTracker.Api/Features/Notifications/CheckDueSubscriptionsJob.cs:52-56 | a row is kept exactly when it is present and passes |
| Notifications.FilterAppend | api/src/SubTracker.Api/Features/Notifications/CheckDueSubscriptionsJob.cs:52-56 | `Where` keeps order: it distributes over concatenation |
| Notifications.FilterWeakerFirst | api/src/SubTracker.Api/Features/Notifications/CheckDueSubscriptionsJob.cs:52-56 | filtering on a weaker condition first changes nothing, so loading only active rows loses no due row |
| Notifications.ActiveRows | api/src/SubTracker.Api/Features/Notifications/CheckDueSubscriptionsJob.cs:52-54 | the store's rows with `isActive`, in row order |
| Notifications.DueRows | api/src/SubTracker.Api/Features/Notifications/CheckDueSubscriptionsJob.cs:56 | the loaded rows that are due soon at now, in load order; `NotifiedAreTheDueOnes` and `NotifiedInLoadOrder` state which rows and in what order |
| Notifications.SweptAs | api/src/SubTracker.Api/Features/Notifications/CheckDueSubscriptionsJob.cs:42-91 | what one sweep does: a failed store read is a failed sweep; otherwise the due active rows are notified in load order, and the counters count the calls among them that returned and that threw |
| Notifications.CheckAndNotify | api/src/SubTracker.Api/Features/Notifications/CheckDueSubscriptionsJob.cs:42-100 | a failed store read ends the sweep with the exception. Otherwise the sweep notifies the due active rows in load order, one call each, with the two counters as defined by the calls' outcomes. It declares no `modifies`, so it writes nothing |
| Notifications.Execute | api/src/SubTracker.Api/Features/Notifications/CheckDueSubscriptionsJob.cs:21-40 | every wake-up runs one full sweep over the rows the store holds at that wake-up, and a sweep that failed does not stop the next |
| Notifications.NotifiedAreTheDueOnes | api/src/SubTracker.Api/Features/Notifications/CheckDueSubscriptionsJob.cs:52-56 | a row is notified exactly when it is stored and due soon (so active), and as often as it is stored |
| Notifications.NotifiedInLoadOrder | api/src/SubTracker.Api/Features/Notifications/CheckDueSubscriptionsJob.cs:52-56 | the notified rows of a concatenation are those of each part, one after the other |
| Notifications.NotifiedIffIsDueSoon | api/src/SubTracker.Api/Features/Notifications/CheckDueSubscriptionsJob.cs:56 | a stored subscription's row is notified exactly when the entity's `IsDueSoon(now)` holds |
| Notifications.CountsAddUp | api/src/SubTracker.Api/Features/Notifications/CheckDueSubscriptionsJob.cs:60-91 | successes plus failures equal the number of calls |
| Notifications.CountIsNumberOfCalls | api/src/SubTracker.Api/Features/Notifications/CheckDueSubscriptionsJob.cs:63-90 | each counter is the number of calls with that outcome |
| Notifications.CompletedSweep | api/src/SubTracker.Api/Features/Notifications/CheckDueSubscriptionsJob.cs:60-91 | in a completed sweep, successes plus failures equal the due rows. Failures are the number of sends that threw and successes the number that returned |
| Notifications.FailuresDoNotStopTheSweep | api/src/SubTracker.Api/Features/Notifications/CheckDueSubscriptionsJob.cs:81-90 | whatever the sends do, the same rows are notified: a send that throws never stops the rest |

## Left out

- Time range: years after 9999 and the `ArgumentOutOfRangeException` that `AddMonths`, `AddYears` and `AddDays` throw near `DateTime.MaxValue` are not modelled; the calendar is unbounded above.
- `DateTimeKind` is not modelled; instants compare by ticks only, as .NET does.
- Calendar.AddDays: only 0..28 days at a time, enough for the weekly step of seven days.
- Subscriptions.DueSoon: `TimeSpan.TotalDays` is a double; the model compares exact tick counts against the window length in ticks, with no rounding.
- `Enum.TryParse` and `Enum.Parse` also accept numeric strings, comma-separated flag names and names with white space around them (`" Monthly "`); the model parses exact member names only and refuses the rest. The category enum is not part of this model, so its names are the parameter `categoryNames`.
- Decimal amounts are modelled as `real`; decimal precision and range are not modelled.
- `Guid.NewGuid` randomness is not modelled: identifiers are supplied, so their uniqueness is an assumption about the caller.
- Subscriptions.Subscription.Deactivate: the method is not defined in `Subscription.cs`. The import tests fix only `isActive == false`; setting `updatedAt` to the argument is an assumption, one that changes nothing under a fixed clock.
- A null request list or a null item cannot be expressed: the model's items are values. The source throws `NullReferenceException` for them while validating (an HTTP 500, with nothing written).
- Import.HandleAsync: the model reads the clock once per request. The source reads `_dateTime.UtcNow` once per item for `Create` and once more for `Deactivate`, and again in `Validate`; this is the same under a fixed clock provider.
- Import.HandleAsync: `SaveChangesAsync` is modelled as the append succeeding. Database failures, the HTTP response and cancellation are left out.
- The exact message texts are modelled in `Import.Message`, but only through the error lists; the lemmas state which message an entry carries, not its characters.
- Notifications.CheckAndNotify: the clock is read once per sweep. The source reads `dateTime.UtcNow` for each row in the filter and in the message, which is the same under a fixed clock provider.
- The notification's title and body, including the `(int)TotalDays` days figure, and all logging and the stopwatch are not modelled.
- The notifier is an oracle: each call either returns or throws. `PushoverNotificationService` returns normally when it is not configured, so the job counts such a send as a success; the HTTP client itself is not part of this model.
- A failed store read is a flag of each wake-up, and the sweep then ends with the exception, as any exception escaping `CheckAndNotifyAsync` does.
- Notifications.Execute: the one-hour `Task.Delay`, the `CancellationToken` and the start and stop log lines are not modelled; the job runs over a finite sequence of wake-ups, and cancellation is the end of that sequence.
- Dependency injection, EF Core queries, the CRUD endpoints, the mapper, the seeder and the migration are outside the core.
