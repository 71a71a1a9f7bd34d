/**
 `CachedDBImpl`: a `DB` that answers the per-day queries from three
 date-keyed maps when it can, and otherwise asks the wrapped store and
 schedules a job that caches the whole month. Every successful write to an
 expense wipes all three maps. The executor is the queue `pending`, worked
 off by `RunNextJob`; the locks around each map access are not modelled.
 */
module CachedDBImpl {
  import opened Dates
  import opened DbModel
  import opened MonthFill

  /** The three `Runnable`s the cache hands to its executor. */
  datatype Job =
    | CacheExpensesForMonth(startOfMonthDate: Date)
    | CacheBalanceForMonth(startOfMonthDate: Date)
    | CacheCheckedBalanceForMonth(startOfMonthDate: Date)

  /** The contents of `CacheDBStorage`. */
  datatype CacheContents = CacheContents(
    expenses: map<Date, seq<Expense>>,
    balances: map<Date, Amount>,
    checkedBalances: map<Date, Amount>)

  const Wiped := CacheContents(map[], map[], map[])

  /** Every cached entry is what the store answers for that day. */
  ghost predicate CacheAgrees(c: CacheContents, s: Store) {
    && Agrees(c.expenses, s.expensesForDay)
    && Agrees(c.balances, s.balanceForDay)
    && Agrees(c.checkedBalances, s.checkedBalanceForDay)
  }

  /** `expensesForDay.isNotEmpty()`, the cached answer of `hasExpenseForDay`. */
  predicate HasExpense(expenses: seq<Expense>)
    ensures HasExpense(expenses) <==> exists e :: e in expenses
  {
    assert |expenses| > 0 ==> expenses[0] in expenses;
    |expenses| > 0
  }

  /** `firstOrNull { !it.checked }`. */
  function FirstUnchecked(expenses: seq<Expense>): (r: Option<Expense>)
    ensures r.None? <==> forall e :: e in expenses ==> e.checked
    ensures r.Some? ==> exists i :: 0 <= i < |expenses| && expenses[i] == r.value && !r.value.checked
                                    && forall j :: 0 <= j < i ==> expenses[j].checked
  {
    if expenses == [] then None
    else if !expenses[0].checked then Some(expenses[0])
    else
      var r := FirstUnchecked(expenses[1..]);
      assert forall e :: e in expenses ==> e == expenses[0] || e in expenses[1..];
      if r.Some? then
        assert exists i :: 1 <= i < |expenses| && expenses[i] == r.value && !r.value.checked
                           && forall j :: 0 <= j < i ==> expenses[j].checked by {
          var k :| 0 <= k < |expenses[1..]| && expenses[1..][k] == r.value && !r.value.checked
                   && forall j :: 0 <= j < k ==> expenses[1..][j].checked;
          assert expenses[k + 1] == r.value;
          forall j | 0 <= j < k + 1 ensures expenses[j].checked {
            if j > 0 { assert expenses[j] == expenses[1..][j - 1]; }
          }
        }
        r
      else r
  }

  /** What running one job does to the cache, given the store it queries. */
  function ApplyJob(c: CacheContents, s: Store, job: Job): (r: CacheContents)
    ensures job.CacheExpensesForMonth? ==> r.balances == c.balances && r.checkedBalances == c.checkedBalances
    ensures job.CacheBalanceForMonth? ==> r.expenses == c.expenses && r.checkedBalances == c.checkedBalances
    ensures job.CacheCheckedBalanceForMonth? ==> r.expenses == c.expenses && r.balances == c.balances
  {
    match job
    case CacheExpensesForMonth(start) =>
      c.(expenses := Populate(c.expenses, s.expensesForDay, start))
    case CacheBalanceForMonth(start) =>
      c.(balances := Populate(c.balances, s.balanceForDay, start))
    case CacheCheckedBalanceForMonth(start) =>
      c.(checkedBalances := Populate(c.checkedBalances, s.checkedBalanceForDay, start))
  }

  /** Running the jobs in queue order. */
  function ApplyJobs(c: CacheContents, s: Store, jobs: seq<Job>): CacheContents
    decreases |jobs|
  {
    if jobs == [] then c else ApplyJobs(ApplyJob(c, s, jobs[0]), s, jobs[1..])
  }

  lemma ApplyJobPreservesAgreement(c: CacheContents, s: Store, job: Job)
    requires CacheAgrees(c, s)
    ensures CacheAgrees(ApplyJob(c, s, job), s)
  {
    match job
    case CacheExpensesForMonth(start) =>
      PopulatePreservesAgreement(c.expenses, s.expensesForDay, start);
    case CacheBalanceForMonth(start) =>
      PopulatePreservesAgreement(c.balances, s.balanceForDay, start);
    case CacheCheckedBalanceForMonth(start) =>
      PopulatePreservesAgreement(c.checkedBalances, s.checkedBalanceForDay, start);
  }

  lemma {:induction false} ApplyJobsPreservesAgreement(c: CacheContents, s: Store, jobs: seq<Job>)
    requires CacheAgrees(c, s)
    ensures CacheAgrees(ApplyJobs(c, s, jobs), s)
    decreases |jobs|
  {
    if jobs != [] {
      ApplyJobPreservesAgreement(c, s, jobs[0]);
      ApplyJobsPreservesAgreement(ApplyJob(c, s, jobs[0]), s, jobs[1..]);
    }
  }

  /** Each map holds whole months only. */
  ghost predicate MonthsClosed(c: CacheContents) {
    MonthClosed(c.expenses) && MonthClosed(c.balances) && MonthClosed(c.checkedBalances)
  }

  /** None of the three per-day queries of the store throws. */
  ghost predicate NeverThrows(s: Store) {
    forall d: Date :: s.expensesForDay(d).Ok? && s.balanceForDay(d).Ok? && s.checkedBalanceForDay(d).Ok?
  }

  /** The map that `job` fills holds every day of the job's month. */
  ghost predicate MonthCached(c: CacheContents, job: Job) {
    match job
    case CacheExpensesForMonth(start) => forall e: Date :: SameMonth(e, start) ==> e in c.expenses
    case CacheBalanceForMonth(start) => forall e: Date :: SameMonth(e, start) ==> e in c.balances
    case CacheCheckedBalanceForMonth(start) => forall e: Date :: SameMonth(e, start) ==> e in c.checkedBalances
  }

  /** Jobs only add keys. */
  lemma {:induction false} ApplyJobsKeepsKeys(c: CacheContents, s: Store, jobs: seq<Job>)
    ensures forall e :: e in c.expenses ==> e in ApplyJobs(c, s, jobs).expenses
    ensures forall e :: e in c.balances ==> e in ApplyJobs(c, s, jobs).balances
    ensures forall e :: e in c.checkedBalances ==> e in ApplyJobs(c, s, jobs).checkedBalances
    decreases |jobs|
  {
    if jobs != [] {
      match jobs[0] {
        case CacheExpensesForMonth(start) => PopulateKeepsKeys(c.expenses, s.expensesForDay, start);
        case CacheBalanceForMonth(start) => PopulateKeepsKeys(c.balances, s.balanceForDay, start);
        case CacheCheckedBalanceForMonth(start) => PopulateKeepsKeys(c.checkedBalances, s.checkedBalanceForDay, start);
      }
      ApplyJobsKeepsKeys(ApplyJob(c, s, jobs[0]), s, jobs[1..]);
    }
  }

  /** Eventual fill: over a store that never throws, once the queued jobs
      (each scheduled for a first day of month) have run, the month of every
      one of them is cached in full, and the maps still hold whole months. */
  lemma {:induction false} ApplyJobsFillsMonths(c: CacheContents, s: Store, jobs: seq<Job>)
    requires MonthsClosed(c) && NeverThrows(s)
    requires forall i :: 0 <= i < |jobs| ==> jobs[i].startOfMonthDate.day == 1
    ensures MonthsClosed(ApplyJobs(c, s, jobs))
    ensures forall i :: 0 <= i < |jobs| ==> MonthCached(ApplyJobs(c, s, jobs), jobs[i])
    decreases |jobs|
  {
    if jobs != [] {
      var c1 := ApplyJob(c, s, jobs[0]);
      match jobs[0] {
        case CacheExpensesForMonth(start) => PopulateKeepsMonthsClosed(c.expenses, s.expensesForDay, start);
        case CacheBalanceForMonth(start) => PopulateKeepsMonthsClosed(c.balances, s.balanceForDay, start);
        case CacheCheckedBalanceForMonth(start) =>
          PopulateKeepsMonthsClosed(c.checkedBalances, s.checkedBalanceForDay, start);
      }
      assert MonthCached(c1, jobs[0]);
      ApplyJobsFillsMonths(c1, s, jobs[1..]);
      ApplyJobsKeepsKeys(c1, s, jobs[1..]);
      forall i | 0 <= i < |jobs|
        ensures MonthCached(ApplyJobs(c, s, jobs), jobs[i])
      {
        if i > 0 {
          assert jobs[i] == jobs[1..][i - 1];
        }
      }
    }
  }

  class CachedDB {
    /** `wrappedDB`, as it currently answers. */
    var db: Store
    /** `cacheStorage.expenses`, `.balances` and `.checkedBalances`. */
    var expenses: map<Date, seq<Expense>>
    var balances: map<Date, Amount>
    var checkedBalances: map<Date, Amount>
    /** The jobs handed to `executor` that have not run yet, oldest first. */
    var pending: seq<Job>

    ghost function Contents(): CacheContents
      reads this
    {
      CacheContents(expenses, balances, checkedBalances)
    }

    /** The cache holds nothing the store would answer differently. */
    ghost predicate Agreeing()
      reads this
    {
      CacheAgrees(Contents(), db)
    }

    /** Every queued job was scheduled for a first day of month. */
    ghost predicate JobsStartOnFirstDay()
      reads this
    {
      forall i :: 0 <= i < |pending| ==> pending[i].startOfMonthDate.day == 1
    }

    ghost predicate Valid()
      reads this
    {
      Agreeing() && JobsStartOnFirstDay()
    }

    constructor (wrappedDB: Store, cacheStorage: CacheContents)
      ensures db == wrappedDB && Contents() == cacheStorage && pending == []
      ensures JobsStartOnFirstDay()
      ensures CacheAgrees(cacheStorage, wrappedDB) ==> Valid()
    {
      db := wrappedDB;
      expenses, balances, checkedBalances := cacheStorage.expenses, cacheStorage.balances, cacheStorage.checkedBalances;
      pending := [];
    }

    // ---- Cache-aware reads ----

    method HasExpenseForDay(dayDate: Date) returns (r: Result<bool>)
      modifies this`pending
      ensures dayDate in expenses ==> r == Ok(expenses[dayDate] != []) && pending == old(pending)
      ensures dayDate !in expenses ==>
        r == db.hasExpenseForDay(dayDate) && pending == old(pending) + [CacheExpensesForMonth(StartOfMonth(dayDate))]
      ensures old(Valid()) ==> Valid()
      ensures Agreeing() && db.Coherent() ==> r == db.hasExpenseForDay(dayDate)
    {
      if dayDate in expenses {
        r := Ok(HasExpense(expenses[dayDate]));
      } else {
        pending := pending + [CacheExpensesForMonth(StartOfMonth(dayDate))];
        r := db.hasExpenseForDay(dayDate);
      }
    }

    method HasUncheckedExpenseForDay(dayDate: Date) returns (r: Result<bool>)
      modifies this`pending
      ensures dayDate in expenses ==>
        r == Ok(exists e :: e in expenses[dayDate] && !e.checked) && pending == old(pending)
      ensures dayDate !in expenses ==>
        r == db.hasUncheckedExpenseForDay(dayDate) && pending == old(pending) + [CacheExpensesForMonth(StartOfMonth(dayDate))]
      ensures old(Valid()) ==> Valid()
      ensures Agreeing() && db.Coherent() ==> r == db.hasUncheckedExpenseForDay(dayDate)
    {
      if dayDate in expenses {
        r := Ok(FirstUnchecked(expenses[dayDate]) != None);
      } else {
        pending := pending + [CacheExpensesForMonth(StartOfMonth(dayDate))];
        r := db.hasUncheckedExpenseForDay(dayDate);
      }
    }

    method GetExpensesForDay(dayDate: Date) returns (r: Result<seq<Expense>>)
      modifies this`pending
      ensures dayDate in expenses ==> r == Ok(expenses[dayDate]) && pending == old(pending)
      ensures dayDate !in expenses ==>
        r == db.expensesForDay(dayDate) && pending == old(pending) + [CacheExpensesForMonth(StartOfMonth(dayDate))]
      ensures old(Valid()) ==> Valid()
      ensures Agreeing() ==> r == db.expensesForDay(dayDate)
    {
      if dayDate in expenses {
        return Ok(expenses[dayDate]);
      } else {
        pending := pending + [CacheExpensesForMonth(StartOfMonth(dayDate))];
      }
      r := db.expensesForDay(dayDate);
    }

    method GetBalanceForDay(dayDate: Date) returns (r: Result<Amount>)
      modifies this`pending
      ensures dayDate in balances ==> r == Ok(balances[dayDate]) && pending == old(pending)
      ensures dayDate !in balances ==>
        r == db.balanceForDay(dayDate) && pending == old(pending) + [CacheBalanceForMonth(StartOfMonth(dayDate))]
      ensures old(Valid()) ==> Valid()
      ensures Agreeing() ==> r == db.balanceForDay(dayDate)
    {
      if dayDate in balances {
        return Ok(balances[dayDate]);
      } else {
        pending := pending + [CacheBalanceForMonth(StartOfMonth(dayDate))];
      }
      r := db.balanceForDay(dayDate);
    }

    method GetCheckedBalanceForDay(dayDate: Date) returns (r: Result<Amount>)
      modifies this`pending
      ensures dayDate in checkedBalances ==> r == Ok(checkedBalances[dayDate]) && pending == old(pending)
      ensures dayDate !in checkedBalances ==>
        r == db.checkedBalanceForDay(dayDate) && pending == old(pending) + [CacheCheckedBalanceForMonth(StartOfMonth(dayDate))]
      ensures old(Valid()) ==> Valid()
      ensures Agreeing() ==> r == db.checkedBalanceForDay(dayDate)
    {
      if dayDate in checkedBalances {
        return Ok(checkedBalances[dayDate]);
      } else {
        pending := pending + [CacheCheckedBalanceForMonth(StartOfMonth(dayDate))];
      }
      r := db.checkedBalanceForDay(dayDate);
    }

    // ---- Writes that wipe the cache ----

    /** `wipeCache()`: clear balances, expenses and checked balances. */
    method WipeCache()
      modifies this`expenses, this`balances, this`checkedBalances
      ensures Contents() == Wiped
      ensures Agreeing()
    {
      balances := map[];
      expenses := map[];
      checkedBalances := map[];
    }

    /** The common shape of every wiping write: the store call, then the wipe
        only if the call returned. */
    method WipingWrite<T>(reply: StoreWrite<T>) returns (r: Result<T>)
      modifies this`db, this`expenses, this`balances, this`checkedBalances
      ensures reply.Done? ==> r == Ok(reply.value) && db == reply.after && Contents() == Wiped
      ensures reply.Failed? ==> r == Err(reply.error) && db == old(db) && Contents() == old(Contents())
      ensures reply.Done? ==> Agreeing()
      ensures old(Valid()) ==> Valid()
    {
      match reply
      case Failed(error) =>
        r := Err(error);
      case Done(value, after) =>
        db := after;
        WipeCache();
        r := Ok(value);
    }

    method PersistExpense(expense: Expense, reply: StoreWrite<Expense>) returns (r: Result<Expense>)
      modifies this`db, this`expenses, this`balances, this`checkedBalances
      ensures reply.Done? ==> r == Ok(reply.value) && db == reply.after && Contents() == Wiped
      ensures reply.Failed? ==> r == Err(reply.error) && db == old(db) && Contents() == old(Contents())
      ensures reply.Done? ==> Agreeing()
      ensures old(Valid()) ==> Valid()
    {
      r := WipingWrite(reply);
    }

    method DeleteExpense(expense: Expense, reply: StoreWrite<()>) returns (r: Result<()>)
      modifies this`db, this`expenses, this`balances, this`checkedBalances
      ensures reply.Done? ==> r == Ok(reply.value) && db == reply.after && Contents() == Wiped
      ensures reply.Failed? ==> r == Err(reply.error) && db == old(db) && Contents() == old(Contents())
      ensures reply.Done? ==> Agreeing()
      ensures old(Valid()) ==> Valid()
    {
      r := WipingWrite(reply);
    }

    method DeleteAllExpenseForRecurringExpense(recurringExpense: RecurringExpense, reply: StoreWrite<()>)
      returns (r: Result<()>)
      modifies this`db, this`expenses, this`balances, this`checkedBalances
      ensures reply.Done? ==> r == Ok(reply.value) && db == reply.after && Contents() == Wiped
      ensures reply.Failed? ==> r == Err(reply.error) && db == old(db) && Contents() == old(Contents())
      ensures reply.Done? ==> Agreeing()
      ensures old(Valid()) ==> Valid()
    {
      r := WipingWrite(reply);
    }

    method DeleteAllExpenseForRecurringExpenseAfterDate(recurringExpense: RecurringExpense, afterDate: Date,
                                                        reply: StoreWrite<()>) returns (r: Result<()>)
      modifies this`db, this`expenses, this`balances, this`checkedBalances
      ensures reply.Done? ==> r == Ok(reply.value) && db == reply.after && Contents() == Wiped
      ensures reply.Failed? ==> r == Err(reply.error) && db == old(db) && Contents() == old(Contents())
      ensures reply.Done? ==> Agreeing()
      ensures old(Valid()) ==> Valid()
    {
      r := WipingWrite(reply);
    }

    method DeleteAllExpenseForRecurringExpenseBeforeDate(recurringExpense: RecurringExpense, beforeDate: Date,
                                                         reply: StoreWrite<()>) returns (r: Result<()>)
      modifies this`db, this`expenses, this`balances, this`checkedBalances
      ensures reply.Done? ==> r == Ok(reply.value) && db == reply.after && Contents() == Wiped
      ensures reply.Failed? ==> r == Err(reply.error) && db == old(db) && Contents() == old(Contents())
      ensures reply.Done? ==> Agreeing()
      ensures old(Valid()) ==> Valid()
    {
      r := WipingWrite(reply);
    }

    method MarkAllEntriesAsChecked(beforeDate: Date, reply: StoreWrite<()>) returns (r: Result<()>)
      modifies this`db, this`expenses, this`balances, this`checkedBalances
      ensures reply.Done? ==> r == Ok(reply.value) && db == reply.after && Contents() == Wiped
      ensures reply.Failed? ==> r == Err(reply.error) && db == old(db) && Contents() == old(Contents())
      ensures reply.Done? ==> Agreeing()
      ensures old(Valid()) ==> Valid()
    {
      r := WipingWrite(reply);
    }

    // ---- Writes that pass through without touching the cache ----

    method PersistRecurringExpense(recurringExpense: RecurringExpense, reply: StoreWrite<RecurringExpense>)
      returns (r: Result<RecurringExpense>)
      modifies this`db
      ensures reply.Done? ==> r == Ok(reply.value) && db == reply.after
      ensures reply.Failed? ==> r == Err(reply.error) && db == old(db)
      ensures old(Valid()) && old(db).SameDayView(db) ==> Valid()
    {
      match reply
      case Failed(error) => r := Err(error);
      case Done(value, after) => db := after; r := Ok(value);
    }

    /** Unlike the expense deletions, this one does not wipe the cache. */
    method DeleteRecurringExpense(recurringExpense: RecurringExpense, reply: StoreWrite<()>) returns (r: Result<()>)
      modifies this`db
      ensures reply.Done? ==> r == Ok(reply.value) && db == reply.after
      ensures reply.Failed? ==> r == Err(reply.error) && db == old(db)
      ensures old(Valid()) && old(db).SameDayView(db) ==> Valid()
    {
      match reply
      case Failed(error) => r := Err(error);
      case Done(value, after) => db := after; r := Ok(value);
    }

    // ---- Reads and lifecycle hooks that pass through ----

    method EnsureDBCreated(reply: Result<()>) returns (r: Result<()>)
      ensures r == reply
    {
      r := reply;
    }

    method TriggerForceWriteToDisk(reply: Result<()>) returns (r: Result<()>)
      ensures r == reply
    {
      r := reply;
    }

    method GetExpensesForMonth(monthStartDate: Date) returns (r: Result<seq<Expense>>)
      ensures r == db.expensesForMonth(monthStartDate)
    {
      r := db.expensesForMonth(monthStartDate);
    }

    method GetAllExpenseForRecurringExpense(recurringExpense: RecurringExpense) returns (r: Result<seq<Expense>>)
      ensures r == db.allExpenseForRecurringExpense(recurringExpense)
    {
      r := db.allExpenseForRecurringExpense(recurringExpense);
    }

    method GetAllExpensesForRecurringExpenseAfterDate(recurringExpense: RecurringExpense, afterDate: Date)
      returns (r: Result<seq<Expense>>)
      ensures r == db.allExpensesForRecurringExpenseAfterDate(recurringExpense, afterDate)
    {
      r := db.allExpensesForRecurringExpenseAfterDate(recurringExpense, afterDate);
    }

    method GetAllExpensesForRecurringExpenseBeforeDate(recurringExpense: RecurringExpense, beforeDate: Date)
      returns (r: Result<seq<Expense>>)
      ensures r == db.allExpensesForRecurringExpenseBeforeDate(recurringExpense, beforeDate)
    {
      r := db.allExpensesForRecurringExpenseBeforeDate(recurringExpense, beforeDate);
    }

    method HasExpensesForRecurringExpenseBeforeDate(recurringExpense: RecurringExpense, beforeDate: Date)
      returns (r: Result<bool>)
      ensures r == db.hasExpensesForRecurringExpenseBeforeDate(recurringExpense, beforeDate)
    {
      r := db.hasExpensesForRecurringExpenseBeforeDate(recurringExpense, beforeDate);
    }

    method FindRecurringExpenseForId(recurringExpenseId: int) returns (r: Result<Option<RecurringExpense>>)
      ensures r == db.recurringExpenseForId(recurringExpenseId)
    {
      r := db.recurringExpenseForId(recurringExpenseId);
    }

    method GetOldestExpense() returns (r: Result<Option<Expense>>)
      ensures r == db.oldestExpense
    {
      r := db.oldestExpense;
    }

    // ---- The populate jobs ----

    /** `CacheExpensesForMonthRunnable.run()`. */
    method RunCacheExpensesForMonth(startOfMonthDate: Date)
      modifies this`expenses
      ensures expenses == Populate(old(expenses), db.expensesForDay, startOfMonthDate)
    {
      if startOfMonthDate in expenses {
        return;
      }
      var currentDate := startOfMonthDate;
      var month := currentDate.month;
      while currentDate.month == month
        invariant currentDate.month == month ==>
          FillMonth(expenses, db.expensesForDay, currentDate) == FillMonth(old(expenses), db.expensesForDay, startOfMonthDate)
        invariant currentDate.month != month ==> expenses == FillMonth(old(expenses), db.expensesForDay, startOfMonthDate)
        decreases if currentDate.month == month then LastDay(currentDate) - currentDate.day + 1 else 0
      {
        var expensesForDay := db.expensesForDay(currentDate);
        if expensesForDay.Err? {
          return;
        }
        expenses := expenses[currentDate := expensesForDay.value];
        currentDate := NextDay(currentDate);
      }
    }

    /** `CacheBalanceForMonthRunnable.run()`. */
    method RunCacheBalanceForMonth(startOfMonthDate: Date)
      modifies this`balances
      ensures balances == Populate(old(balances), db.balanceForDay, startOfMonthDate)
    {
      if startOfMonthDate in balances {
        return;
      }
      var currentDate := startOfMonthDate;
      var month := currentDate.month;
      while currentDate.month == month
        invariant currentDate.month == month ==>
          FillMonth(balances, db.balanceForDay, currentDate) == FillMonth(old(balances), db.balanceForDay, startOfMonthDate)
        invariant currentDate.month != month ==> balances == FillMonth(old(balances), db.balanceForDay, startOfMonthDate)
        decreases if currentDate.month == month then LastDay(currentDate) - currentDate.day + 1 else 0
      {
        var balanceForDay := db.balanceForDay(currentDate);
        if balanceForDay.Err? {
          return;
        }
        balances := balances[currentDate := balanceForDay.value];
        currentDate := NextDay(currentDate);
      }
    }

    /** `CacheCheckedBalanceForMonthRunnable.run()`. */
    method RunCacheCheckedBalanceForMonth(startOfMonthDate: Date)
      modifies this`checkedBalances
      ensures checkedBalances == Populate(old(checkedBalances), db.checkedBalanceForDay, startOfMonthDate)
    {
      if startOfMonthDate in checkedBalances {
        return;
      }
      var currentDate := startOfMonthDate;
      var month := currentDate.month;
      while currentDate.month == month
        invariant currentDate.month == month ==>
          FillMonth(checkedBalances, db.checkedBalanceForDay, currentDate)
            == FillMonth(old(checkedBalances), db.checkedBalanceForDay, startOfMonthDate)
        invariant currentDate.month != month ==>
          checkedBalances == FillMonth(old(checkedBalances), db.checkedBalanceForDay, startOfMonthDate)
        decreases if currentDate.month == month then LastDay(currentDate) - currentDate.day + 1 else 0
      {
        var balanceForDay := db.checkedBalanceForDay(currentDate);
        if balanceForDay.Err? {
          return;
        }
        checkedBalances := checkedBalances[currentDate := balanceForDay.value];
        currentDate := NextDay(currentDate);
      }
    }

    // ---- The executor ----

    /** Run the oldest pending job, if any. */
    method RunNextJob() returns (ran: bool)
      modifies this`expenses, this`balances, this`checkedBalances, this`pending
      ensures ran <==> old(pending) != []
      ensures ran ==> pending == old(pending)[1..] && Contents() == ApplyJob(old(Contents()), db, old(pending)[0])
      ensures !ran ==> pending == old(pending) && Contents() == old(Contents())
      ensures old(Valid()) ==> Valid()
    {
      if pending == [] {
        return false;
      }
      var job := pending[0];
      pending := pending[1..];
      match job {
        case CacheExpensesForMonth(start) => RunCacheExpensesForMonth(start);
        case CacheBalanceForMonth(start) => RunCacheBalanceForMonth(start);
        case CacheCheckedBalanceForMonth(start) => RunCacheCheckedBalanceForMonth(start);
      }
      ran := true;
      if old(Valid()) {
        ApplyJobPreservesAgreement(old(Contents()), db, job);
      }
    }

    /** Run every pending job, oldest first. */
    method RunPendingJobs()
      modifies this`expenses, this`balances, this`checkedBalances, this`pending
      ensures pending == []
      ensures Contents() == ApplyJobs(old(Contents()), db, old(pending))
      ensures old(Valid()) ==> Valid()
    {
      while pending != []
        invariant ApplyJobs(Contents(), db, pending) == ApplyJobs(old(Contents()), db, old(pending))
        invariant old(Valid()) ==> Valid()
        decreases |pending|
      {
        var _ := RunNextJob();
      }
    }
  }
}
