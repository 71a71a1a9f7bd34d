# EasyBudget's day cache, modelled in Dafny

`CachedDBImpl` is the decorator EasyBudget puts in front of its expense
ledger (`DB`). It keeps three maps keyed by calendar day: the expense list of
the day, the running balance at the end of the day, and the balance of checked
expenses only. A per-day read is answered from its map when the day is a key.
On a miss, the cache hands a month-populate job for the first day of that
month to its executor, then answers from the wrapped store. Each job returns
at once if the first day of its month is already cached. Otherwise it asks the
store for every day of that month in order and caches each answer as it gets
it. Writes to expenses are delegated to the store; when the store call
returns, all three maps are cleared. Every other operation passes straight
through.

Files:

- `Dates.dfy`: a Gregorian `Date` (a subset type, so every value is a real
  day), `DaysInMonth` with the leap-year rule, `NextDay` (`plusDays(1)`)
  with its inverse `PrevDay`, and `StartOfMonth`.
- `DbModel.dfy`: the values that cross the `DB` interface, and the store.
  A store call yields `Result`: a value, or the exception it throws. A
  `Store` is what each query of the wrapped store answers in its current
  state. A write is represented by the store's reply, `StoreWrite`: it
  returned a value and the store now answers as `after`, or it threw.
  Balances and amounts are Kotlin `Double`s. The cache only stores and returns
  them, so `Amount` is their 64-bit pattern, compared for identity.
- `MonthFill.dfy`: what one populate job does to its map. `FillMonth` is the
  `while` loop, `Populate` is the loop plus the guard, and the lemmas cover
  both. The three job kinds share this module; they differ only in the map and
  the store query.
- `CachedDB.dfy`: class `CachedDB`. Its fields are the wrapped store, the three
  maps of `CacheDBStorage`, and the executor as a queue of pending `Job`s. It
  also holds the read, write and passthrough methods of the `DB` contract.
  The three `run()` methods are `while` loops proved against `Populate`. The
  executor (`RunNextJob`, `RunPendingJobs`) is proved against `ApplyJob` and
  `ApplyJobs`.
- `Scenario.dfy`: clients that rely only on the contracts.
  `MissThenPopulate` is a miss followed by the executor draining its queue,
  for any valid cache. `SingleExpenseStore` is a store holding one expense;
  `JobCachesExpenseMonth` says what the job for that expense's month caches,
  and `MissThenFillMonth` runs a miss and that job on an empty cache.
  `MarchScenario` is a concrete run over March 2024 built on them: a miss,
  the March job, a hit, a persisted expense that wipes the cache, and the
  same read missing again.

The main invariant is `CachedDB.Valid()`. It has two parts. `Agreeing()`:
every cached entry equals what the store answers for that day.
`JobsStartOnFirstDay()`: every queued job starts on the first day of its
month, as `startOfMonth()` makes it. Reads and jobs preserve `Valid()`. A
successful wiping write re-establishes agreement. The two passthrough writes
keep `Valid()` when the store's per-day answers did not change. When
the cache agrees with the store, every cached read returns exactly what the
store would return. For the two day predicates this also needs the store
itself to be coherent (`Store.Coherent`).

Two behaviours of the code are worth stating:

- A populate job that throws after it has cached day 1 leaves its month
  partly cached. The guard (:209) tests only day 1, so every later job for
  that month returns at once until the next wipe. (A job whose query for
  day 1 throws caches nothing, and the next job walks the month again.) Reads stay correct, because they fall back to the
  store (`MonthFill.PartialMonthStaysPartial`).
- `deleteRecurringExpense` (:130-132) only delegates and does not wipe the
  cache; neither does `CachedDB.DeleteRecurringExpense`.

## Model

| member | source | states |
|---|---|---|
| Dates.DaysInMonth | Android/EasyBudget/app/src/main/java/com/benoitletondor/easybudgetapp/db/impl/CachedDBImpl.kt:220-229 | the length of the month the job walks is 28 to 31 days; February has 29 exactly in Gregorian leap years |
| Dates.StartOfMonth | Android/EasyBudget/app/src/main/java/com/benoitletondor/easybudgetapp/db/impl/CachedDBImpl.kt:311 | `startOfMonth(d)` has d's year and month and day 1, and is d or an earlier day |
| Dates.StartOfMonthIdempotent | Android/EasyBudget/app/src/main/java/com/benoitletondor/easybudgetapp/db/impl/CachedDBImpl.kt:311 | `startOfMonth` applied twice equals applied once |
| Dates.SameStartIffSameMonth | Android/EasyBudget/app/src/main/java/com/benoitletondor/easybudgetapp/db/impl/CachedDBImpl.kt:311 | two days get the same job date exactly when they are in the same month (both directions) |
| Dates.NextDay | Android/EasyBudget/app/src/main/java/com/benoitletondor/easybudgetapp/db/impl/CachedDBImpl.kt:228 | `plusDays(1)` is a later day; inside the month it is day+1 of the same month, and from the last day it leaves the month on day 1 |
| Dates.NextDayPrevDay | Android/EasyBudget/app/src/main/java/com/benoitletondor/easybudgetapp/db/impl/CachedDBImpl.kt:228 | `NextDay` and `PrevDay` are inverse to each other |
| Dates.NextDayIsSuccessor | Android/EasyBudget/app/src/main/java/com/benoitletondor/easybudgetapp/db/impl/CachedDBImpl.kt:228 | no day lies strictly between a day and its `NextDay` |
| MonthFill.FillMonth | Android/EasyBudget/app/src/main/java/com/benoitletondor/easybudgetapp/db/impl/CachedDBImpl.kt:220-229 | stores `read(day)` for `from` and each later day of its month, in order, and stops at the first query that throws: it keeps every key of the map and adds only days of that walk |
| MonthFill.Populate | Android/EasyBudget/app/src/main/java/com/benoitletondor/easybudgetapp/db/impl/CachedDBImpl.kt:207-212 | a job whose start date is already a key changes nothing |
| MonthFill.FillMonthOutside | Android/EasyBudget/app/src/main/java/com/benoitletondor/easybudgetapp/db/impl/CachedDBImpl.kt:220-229 | the month walk neither adds nor changes a key before its start day or outside its month |
| MonthFill.FillMonthInside | Android/EasyBudget/app/src/main/java/com/benoitletondor/easybudgetapp/db/impl/CachedDBImpl.kt:220-229 | a day of the walk holds the store's value if every query up to it succeeded; if one of them threw, the day is as it was |
| MonthFill.PopulateFillsMonth | Android/EasyBudget/app/src/main/java/com/benoitletondor/easybudgetapp/db/impl/CachedDBImpl.kt:207-229 | when a job runs on an unseen month and no query throws, it adds exactly that month's days, from 1 to `DaysInMonth`, each set to the store's value; every other key is unchanged |
| MonthFill.FebruaryOfLeapYear | Android/EasyBudget/app/src/main/java/com/benoitletondor/easybudgetapp/db/impl/CachedDBImpl.kt:215-229 | in any leap year (2024 included), a job for February 1 over a store that never throws caches exactly February 1 to 29, and no day of January or March |
| MonthFill.FillMonthTwice | Android/EasyBudget/app/src/main/java/com/benoitletondor/easybudgetapp/db/impl/CachedDBImpl.kt:207-229 | two jobs that both pass the guard and both walk the month leave the same map as one walk does |
| MonthFill.PopulateIdempotent | Android/EasyBudget/app/src/main/java/com/benoitletondor/easybudgetapp/db/impl/CachedDBImpl.kt:207-212 | running a job a second time changes nothing |
| MonthFill.PopulatePreservesAgreement | Android/EasyBudget/app/src/main/java/com/benoitletondor/easybudgetapp/db/impl/CachedDBImpl.kt:221-226 | a job writes only the store's own values, so a map that agrees with the store keeps agreeing |
| MonthFill.PopulateKeepsKeys | Android/EasyBudget/app/src/main/java/com/benoitletondor/easybudgetapp/db/impl/CachedDBImpl.kt:224-226 | a job never removes a key |
| MonthFill.PopulateKeepsMonthsClosed | Android/EasyBudget/app/src/main/java/com/benoitletondor/easybudgetapp/db/impl/CachedDBImpl.kt:207-229 | if the map holds only whole months and the month's queries succeed, then after the job it holds that whole month and still only whole months |
| MonthFill.PartialMonthStaysPartial | Android/EasyBudget/app/src/main/java/com/benoitletondor/easybudgetapp/db/impl/CachedDBImpl.kt:207-212 | if the walk throws on March 15, days 1 to 14 are cached and the 15th is not; a later March job then changes nothing, even once the store answers |
| CachedDBImpl.HasExpense | Android/EasyBudget/app/src/main/java/com/benoitletondor/easybudgetapp/db/impl/CachedDBImpl.kt:56 | true exactly when the cached list is non-empty (holds some expense) |
| CachedDBImpl.FirstUnchecked | Android/EasyBudget/app/src/main/java/com/benoitletondor/easybudgetapp/db/impl/CachedDBImpl.kt:69 | `firstOrNull { !it.checked }` is null exactly when every expense is checked; otherwise it is the first unchecked one |
| CachedDBImpl.ApplyJob | Android/EasyBudget/app/src/main/java/com/benoitletondor/easybudgetapp/db/impl/CachedDBImpl.kt:201-302 | each job kind changes only its own map |
| CachedDBImpl.ApplyJobPreservesAgreement | Android/EasyBudget/app/src/main/java/com/benoitletondor/easybudgetapp/db/impl/CachedDBImpl.kt:201-302 | a job of any kind keeps all three maps agreeing with the store |
| CachedDBImpl.ApplyJobsPreservesAgreement | Android/EasyBudget/app/src/main/java/com/benoitletondor/easybudgetapp/db/impl/CachedDBImpl.kt:201-302 | any sequence of jobs keeps the cache agreeing with the store |
| CachedDBImpl.ApplyJobsKeepsKeys | Android/EasyBudget/app/src/main/java/com/benoitletondor/easybudgetapp/db/impl/CachedDBImpl.kt:201-302 | running jobs never removes a key from any map |
| CachedDBImpl.ApplyJobsFillsMonths | Android/EasyBudget/app/src/main/java/com/benoitletondor/easybudgetapp/db/impl/CachedDBImpl.kt:201-302 | if every map holds only whole months (`MonthsClosed`) and the store never throws, then after the queued day-1 jobs have run, each job's month is fully cached in its map, and every map still holds only whole months |
| CachedDBImpl.CachedDB.constructor | Android/EasyBudget/app/src/main/java/com/benoitletondor/easybudgetapp/db/impl/CachedDBImpl.kt:27-29 | the decorator starts with the given store and storage and no pending job; it is `Valid()` whenever that storage agrees with the store |
| CachedDBImpl.CachedDB.HasExpenseForDay | Android/EasyBudget/app/src/main/java/com/benoitletondor/easybudgetapp/db/impl/CachedDBImpl.kt:47-58 | hit: the list is non-empty, and no job is added. Miss: the store's answer, with one `CacheExpensesForMonth(startOfMonth(day))` appended. The maps never change. When the cache agrees with a coherent store, the answer equals the store's |
| CachedDBImpl.CachedDB.HasUncheckedExpenseForDay | Android/EasyBudget/app/src/main/java/com/benoitletondor/easybudgetapp/db/impl/CachedDBImpl.kt:60-71 | hit: true exactly when some cached expense is unchecked, and no job is added. Miss: the store's answer, with one expense job for the start of the month appended. When the cache agrees with a coherent store, the answer equals the store's |
| CachedDBImpl.CachedDB.GetExpensesForDay | Android/EasyBudget/app/src/main/java/com/benoitletondor/easybudgetapp/db/impl/CachedDBImpl.kt:73-85 | hit: exactly the cached list, and no job. Miss: the store's list for the day, with one expense job for the start of the month appended. Maps unchanged. When the cache agrees with the store (`Agreeing()`), always the store's answer |
| CachedDBImpl.CachedDB.GetBalanceForDay | Android/EasyBudget/app/src/main/java/com/benoitletondor/easybudgetapp/db/impl/CachedDBImpl.kt:93-105 | hit: the cached balance, and no job. Miss: the store's balance, with one balance job for the start of the month appended. Maps unchanged. When the cache agrees with the store (`Agreeing()`), always the store's answer |
| CachedDBImpl.CachedDB.GetCheckedBalanceForDay | Android/EasyBudget/app/src/main/java/com/benoitletondor/easybudgetapp/db/impl/CachedDBImpl.kt:107-119 | hit: the cached checked balance, and no job. Miss: the store's value, with one checked-balance job for the start of the month appended. Maps unchanged. When the cache agrees with the store (`Agreeing()`), always the store's answer |
| CachedDBImpl.CachedDB.WipeCache | Android/EasyBudget/app/src/main/java/com/benoitletondor/easybudgetapp/db/impl/CachedDBImpl.kt:185-199 | all three maps are empty afterwards, whatever they held |
| CachedDBImpl.CachedDB.PersistExpense | Android/EasyBudget/app/src/main/java/com/benoitletondor/easybudgetapp/db/impl/CachedDBImpl.kt:39-45 | if the store call returns, its result comes back unchanged and all three maps are empty, so the cache agrees with the new store. If it throws, the exception comes back and the maps and the store are unchanged. The queue is untouched |
| CachedDBImpl.CachedDB.DeleteExpense | Android/EasyBudget/app/src/main/java/com/benoitletondor/easybudgetapp/db/impl/CachedDBImpl.kt:134-138 | store call, then a wipe only if it returned; a thrown exception leaves the cache unchanged |
| CachedDBImpl.CachedDB.DeleteAllExpenseForRecurringExpense | Android/EasyBudget/app/src/main/java/com/benoitletondor/easybudgetapp/db/impl/CachedDBImpl.kt:140-144 | store call, then a wipe only if it returned; a thrown exception leaves the cache unchanged |
| CachedDBImpl.CachedDB.DeleteAllExpenseForRecurringExpenseAfterDate | Android/EasyBudget/app/src/main/java/com/benoitletondor/easybudgetapp/db/impl/CachedDBImpl.kt:149-153 | store call, then a wipe only if it returned; a thrown exception leaves the cache unchanged |
| CachedDBImpl.CachedDB.DeleteAllExpenseForRecurringExpenseBeforeDate | Android/EasyBudget/app/src/main/java/com/benoitletondor/easybudgetapp/db/impl/CachedDBImpl.kt:158-162 | store call, then a wipe only if it returned; a thrown exception leaves the cache unchanged |
| CachedDBImpl.CachedDB.MarkAllEntriesAsChecked | Android/EasyBudget/app/src/main/java/com/benoitletondor/easybudgetapp/db/impl/CachedDBImpl.kt:176-180 | store call, then a wipe only if it returned; a thrown exception leaves the cache unchanged |
| CachedDBImpl.CachedDB.PersistRecurringExpense | Android/EasyBudget/app/src/main/java/com/benoitletondor/easybudgetapp/db/impl/CachedDBImpl.kt:127-128 | passthrough: returns the store's reply, may change only the store, and touches neither the maps nor the queue |
| CachedDBImpl.CachedDB.DeleteRecurringExpense | Android/EasyBudget/app/src/main/java/com/benoitletondor/easybudgetapp/db/impl/CachedDBImpl.kt:130-132 | passthrough, with no wipe: the maps and the queue are unchanged; the cache keeps `Valid()` when the store's per-day answers did not change |
| CachedDBImpl.CachedDB.EnsureDBCreated | Android/EasyBudget/app/src/main/java/com/benoitletondor/easybudgetapp/db/impl/CachedDBImpl.kt:31-33 | returns the store's outcome and changes nothing |
| CachedDBImpl.CachedDB.TriggerForceWriteToDisk | Android/EasyBudget/app/src/main/java/com/benoitletondor/easybudgetapp/db/impl/CachedDBImpl.kt:35-37 | returns the store's outcome and changes nothing |
| CachedDBImpl.CachedDB.GetExpensesForMonth | Android/EasyBudget/app/src/main/java/com/benoitletondor/easybudgetapp/db/impl/CachedDBImpl.kt:90-91 | returns the store's answer and changes nothing: no map and no job |
| CachedDBImpl.CachedDB.GetAllExpenseForRecurringExpense | Android/EasyBudget/app/src/main/java/com/benoitletondor/easybudgetapp/db/impl/CachedDBImpl.kt:146-147 | returns the store's answer and changes nothing |
| CachedDBImpl.CachedDB.GetAllExpensesForRecurringExpenseAfterDate | Android/EasyBudget/app/src/main/java/com/benoitletondor/easybudgetapp/db/impl/CachedDBImpl.kt:155-156 | returns the store's answer and changes nothing |
| CachedDBImpl.CachedDB.GetAllExpensesForRecurringExpenseBeforeDate | Android/EasyBudget/app/src/main/java/com/benoitletondor/easybudgetapp/db/impl/CachedDBImpl.kt:164-165 | returns the store's answer and changes nothing |
| CachedDBImpl.CachedDB.HasExpensesForRecurringExpenseBeforeDate | Android/EasyBudget/app/src/main/java/com/benoitletondor/easybudgetapp/db/impl/CachedDBImpl.kt:167-168 | returns the store's answer and changes nothing |
| CachedDBImpl.CachedDB.FindRecurringExpenseForId | Android/EasyBudget/app/src/main/java/com/benoitletondor/easybudgetapp/db/impl/CachedDBImpl.kt:170-171 | returns the store's answer and changes nothing |
| CachedDBImpl.CachedDB.GetOldestExpense | Android/EasyBudget/app/src/main/java/com/benoitletondor/easybudgetapp/db/impl/CachedDBImpl.kt:173-174 | returns the store's answer and changes nothing |
| CachedDBImpl.CachedDB.RunCacheExpensesForMonth | Android/EasyBudget/app/src/main/java/com/benoitletondor/easybudgetapp/db/impl/CachedDBImpl.kt:207-232 | the expenses map becomes `Populate` of the old map; the loop ends, measured by the days left in the month; other maps are untouched |
| CachedDBImpl.CachedDB.RunCacheBalanceForMonth | Android/EasyBudget/app/src/main/java/com/benoitletondor/easybudgetapp/db/impl/CachedDBImpl.kt:242-267 | the balances map becomes `Populate` of the old map with the store's balance query; nothing else changes |
| CachedDBImpl.CachedDB.RunCacheCheckedBalanceForMonth | Android/EasyBudget/app/src/main/java/com/benoitletondor/easybudgetapp/db/impl/CachedDBImpl.kt:276-301 | the checked-balances map becomes `Populate` of the old map with the store's checked-balance query; nothing else changes |
| CachedDBImpl.CachedDB.RunNextJob | Android/EasyBudget/app/src/main/java/com/benoitletondor/easybudgetapp/db/impl/CachedDBImpl.kt:53 | the executor runs the oldest job handed to `execute`, as `ApplyJob` says, and keeps `Valid()` |
| CachedDBImpl.CachedDB.RunPendingJobs | Android/EasyBudget/app/src/main/java/com/benoitletondor/easybudgetapp/db/impl/CachedDBImpl.kt:53 | draining the queue gives `ApplyJobs` of the queue, and keeps `Valid()` |
| Scenario.MissThenPopulate | Android/EasyBudget/app/src/main/java/com/benoitletondor/easybudgetapp/db/impl/CachedDBImpl.kt:73-85 | from a `Valid()` cache (so every queued job starts on day 1) whose maps hold only whole months (`MonthsClosed`), over a store that never throws: the store is left as it was, and the miss answers as that store does. Once the queued jobs have run, the queue is empty, `Valid()` and `MonthsClosed` still hold, and every day of that month is cached with that store's value |
| Scenario.JobCachesExpenseMonth | Android/EasyBudget/app/src/main/java/com/benoitletondor/easybudgetapp/db/impl/CachedDBImpl.kt:207-229 | over a store whose only expense lies on one day, the job for that day's month caches exactly the days of that month, with the expense on its own day |
| Scenario.MissThenFillMonth | Android/EasyBudget/app/src/main/java/com/benoitletondor/easybudgetapp/db/impl/CachedDBImpl.kt:73-85 | an empty cache over that store misses on the expense's day; once the queued job has run, the queue is empty, the cache holds exactly that month, and the day maps to `[expense]` |

## Left out

- Concurrency. The `synchronized` blocks, the executor's threads and `runBlocking` are not modelled. Jobs run one at a time, in queue order, and each job runs to its end without interleaving. So the staleness window is not modelled: a wipe that lands in the middle of a job's walk is impossible here. The model does not capture that a job scheduled before a wipe may cache pre-write values after it.
- Executor order. The model's executor is FIFO; the real `Executor` may run jobs in any order or in parallel.
- `Logger.debug` calls: they only log.
- The wrapped `DB` and its storage engine. The model has only the answers of its queries (`Store`) and the replies to its writes (`StoreWrite`), which the caller supplies. A write that throws is assumed to leave the store's answers unchanged.
- `Double` values. Balances and amounts are opaque 64-bit patterns; no arithmetic is done on them.
- `java.time.LocalDate`. It is replaced by `Dates`, whose years are unbounded: the `DateTimeException` that `plusDays` throws past year 999999999 is not modelled.
- What happens after a job throws. The exception escapes `run()` into the executor; in the model the job simply stops. The days it had already written stay cached.
- `CacheDBStorage` is an interface holding three mutable maps. The model makes the three maps fields of `CachedDB`, so no other object can share or alias them.
- The private `get*WithoutCache` helpers (:87-88, :121-125) call the store directly; the model calls the `Store` query directly.
- `Expense` and `RecurringExpense` keep only the fields the cache or its callers pass around. The cache never inspects anything except `checked`.
- PremiumActivity and MonthlyReportBaseActivity are UI code and are not part of this model.
