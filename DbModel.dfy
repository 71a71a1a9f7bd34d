/**
 The values that cross the `DB` interface, and the wrapped store as the cache
 sees it. The store's engine is not part of this model: a `Store` is a
 snapshot of what each of its queries answers in its current state, and a
 write is represented by the store's reply to it (`StoreWrite`), which the
 caller of the cache supplies.
 */
module DbModel {
  import opened Dates

  datatype Option<+T> = None | Some(value: T)

  /** An exception thrown by the wrapped store. */
  datatype DbError = DbError(message: string)

  /** What a store call produces: a value, or the exception it throws. */
  datatype Result<+T> = Ok(value: T) | Err(error: DbError)

  /** A Kotlin `Double` (an amount or a balance) as its IEEE 754 bit pattern.
      The cache never computes on it; it only stores and returns it. */
  datatype Amount = Amount(bits: bv64)

  datatype RecurringExpense = RecurringExpense(id: Option<int>, title: string, amount: Amount, recurringDate: Date)

  datatype Expense = Expense(
    id: Option<int>,
    title: string,
    amount: Amount,
    date: Date,
    checked: bool,
    associatedRecurringExpense: Option<RecurringExpense>)

  /** The read side of the wrapped `DB`, one function per query. */
  datatype Store = Store(
    expensesForDay: Date -> Result<seq<Expense>>,
    hasExpenseForDay: Date -> Result<bool>,
    hasUncheckedExpenseForDay: Date -> Result<bool>,
    balanceForDay: Date -> Result<Amount>,
    checkedBalanceForDay: Date -> Result<Amount>,
    expensesForMonth: Date -> Result<seq<Expense>>,
    allExpenseForRecurringExpense: RecurringExpense -> Result<seq<Expense>>,
    allExpensesForRecurringExpenseAfterDate: (RecurringExpense, Date) -> Result<seq<Expense>>,
    allExpensesForRecurringExpenseBeforeDate: (RecurringExpense, Date) -> Result<seq<Expense>>,
    hasExpensesForRecurringExpenseBeforeDate: (RecurringExpense, Date) -> Result<bool>,
    recurringExpenseForId: int -> Result<Option<RecurringExpense>>,
    oldestExpense: Result<Option<Expense>>)
  {
    /** The store's two day predicates answer what its expense list for that
        day implies, whenever it can produce that list. */
    ghost predicate Coherent() {
      forall d: Date :: expensesForDay(d).Ok? ==>
        && hasExpenseForDay(d) == Ok(|expensesForDay(d).value| > 0)
        && hasUncheckedExpenseForDay(d) == Ok(exists e :: e in expensesForDay(d).value && !e.checked)
    }

    /** `other` answers every per-day query the cache keeps exactly as this store does. */
    ghost predicate SameDayView(other: Store) {
      && expensesForDay == other.expensesForDay
      && balanceForDay == other.balanceForDay
      && checkedBalanceForDay == other.checkedBalanceForDay
    }
  }

  /** The wrapped store's reply to a write: it returned `value` and now answers
      as `after`, or it threw. */
  datatype StoreWrite<+T> = Done(value: T, after: Store) | Failed(error: DbError)
}
