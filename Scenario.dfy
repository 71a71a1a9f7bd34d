/**
 Clients of `CachedDB` that use only its contracts: a miss followed by the
 executor's work, and a concrete day in March 2024.
 */
module Scenario {
  import opened Dates
  import opened DbModel
  import opened MonthFill
  import opened CachedDBImpl

  /** A read of `day`, then the executor runs every pending job: the read
      answers as the store does, and afterwards every day of that month is
      cached with the store's value. */
  method MissThenPopulate(cache: CachedDB, day: Date) returns (r: Result<seq<Expense>>)
    requires cache.Valid() && MonthsClosed(cache.Contents()) && NeverThrows(cache.db)
    modifies cache`pending, cache`expenses, cache`balances, cache`checkedBalances
    ensures cache.db == old(cache.db)
    ensures r == old(cache.db).expensesForDay(day)
    ensures cache.pending == [] && cache.Valid() && MonthsClosed(cache.Contents())
    ensures forall e: Date :: SameMonth(e, day) ==> e in cache.expenses && old(cache.db).expensesForDay(e) == Ok(cache.expenses[e])
  {
    r := cache.GetExpensesForDay(day);
    ghost var before := cache.Contents();
    ghost var jobs := cache.pending;
    cache.RunPendingJobs();
    ApplyJobsFillsMonths(before, cache.db, jobs);
    ApplyJobsKeepsKeys(before, cache.db, jobs);
    if day !in before.expenses {
      assert MonthCached(cache.Contents(), jobs[|jobs| - 1]);
    } else {
      forall e: Date | SameMonth(e, day) ensures e in cache.expenses {
        assert e in before.expenses;
      }
    }
  }

  /** A store whose only expense is `expense`, that never throws. */
  function SingleExpenseStore(expense: Expense): (s: Store)
    ensures NeverThrows(s) && s.Coherent()
  {
    var lists := (d: Date) => if d == expense.date then [expense] else [];
    Store(
      expensesForDay := (d: Date) => Ok(lists(d)),
      hasExpenseForDay := (d: Date) => Ok(|lists(d)| > 0),
      hasUncheckedExpenseForDay := (d: Date) => Ok(exists e :: e in lists(d) && !e.checked),
      balanceForDay := (d: Date) => Ok(Amount(0)),
      checkedBalanceForDay := (d: Date) => Ok(Amount(0)),
      expensesForMonth := (d: Date) => Ok([]),
      allExpenseForRecurringExpense := re => Ok([]),
      allExpensesForRecurringExpenseAfterDate := (re, d) => Ok([]),
      allExpensesForRecurringExpenseBeforeDate := (re, d) => Ok([]),
      hasExpensesForRecurringExpenseBeforeDate := (re, d) => Ok(false),
      recurringExpenseForId := id => Ok(None),
      oldestExpense := Ok(Some(expense)))
  }

  /** Over `SingleExpenseStore(expense)`, the job for the month of the
      expense's day caches every day of that month and nothing else, with the
      expense on its own day. `MarchScenario` uses it for March 2024. */
  lemma JobCachesExpenseMonth(expense: Expense)
    ensures
      var month := Populate(map[], SingleExpenseStore(expense).expensesForDay, StartOfMonth(expense.date));
      && (forall e: Date :: e in month <==> SameMonth(e, expense.date))
      && month[expense.date] == [expense]
  {
    PopulateFillsMonth(map[], SingleExpenseStore(expense).expensesForDay, StartOfMonth(expense.date));
  }

  /** An empty cache over `SingleExpenseStore(lunch)` misses on `lunch`'s day,
      answers with the store's list and schedules a job for the first of the
      month; once the job has run, the whole month is cached. */
  method MissThenFillMonth(lunch: Expense) returns (cache: CachedDB)
    ensures fresh(cache) && cache.db == SingleExpenseStore(lunch) && cache.pending == []
    ensures forall e: Date :: e in cache.expenses <==> SameMonth(e, lunch.date)
    ensures lunch.date in cache.expenses && cache.expenses[lunch.date] == [lunch]
  {
    var store := SingleExpenseStore(lunch);
    cache := new CachedDB(store, Wiped);

    var first := cache.GetExpensesForDay(lunch.date);
    assert first == Ok([lunch]);
    assert cache.pending == [CacheExpensesForMonth(StartOfMonth(lunch.date))];

    cache.RunPendingJobs();
    assert cache.expenses == Populate(map[], store.expensesForDay, StartOfMonth(lunch.date));
    JobCachesExpenseMonth(lunch);
  }

  /** On 2024-03-15: a miss fills March; the next read of that day hits the
      cache; persisting another expense wipes everything, and the same read
      misses again. */
  method MarchScenario(after: Store)
  {
    var march15: Date := YearMonthDay(2024, 3, 15);
    // -12.50 as an IEEE 754 double
    var lunch := Expense(Some(1), "Lunch", Amount(0xC029_0000_0000_0000), march15, false, None);
    var cache := MissThenFillMonth(lunch);

    var hit := cache.GetExpensesForDay(march15);
    assert hit == Ok([lunch]) && cache.pending == [];
    var unchecked := cache.HasUncheckedExpenseForDay(march15);
    assert unchecked == Ok(true);

    var saved := Expense(Some(2), "Coffee", Amount(0xC014_0000_0000_0000), YearMonthDay(2024, 3, 20), false, None);
    var persisted := cache.PersistExpense(saved.(id := None), Done(saved, after));
    assert persisted == Ok(saved);
    assert cache.Contents() == Wiped && cache.db == after;

    var again := cache.GetExpensesForDay(march15);
    assert again == after.expensesForDay(march15);
    assert cache.pending == [CacheExpensesForMonth(YearMonthDay(2024, 3, 1))];
  }
}
