/**
 What one populate job (`Cache*ForMonthRunnable.run`) does to its map, as a
 function of the map before it runs and of the store query it calls per day.
 All three job kinds share it: they differ only in the map and the query.
 */
module MonthFill {
  import opened Dates
  import opened DbModel

  /** `e` is one of the days a walk starting at `from` visits: `from` and the
      later days of its month. */
  predicate InWalk(e: Date, from: Date) {
    SameMonth(e, from) && from.day <= e.day
  }

  /** Every query of the walk from `from` up to and including `e` succeeds. */
  ghost predicate ReadsSucceed<V>(read: Date -> Result<V>, from: Date, e: Date) {
    forall x: Date :: SameMonth(x, from) && from.day <= x.day <= e.day ==> read(x).Ok?
  }

  /** Every entry of `m` is what `read` answers for its day. */
  ghost predicate Agrees<V>(m: map<Date, V>, read: Date -> Result<V>) {
    forall d :: d in m ==> read(d) == Ok(m[d])
  }

  /** The loop of `run()`: store `read(day)` for `from` and each later day
      of its month, in order, stopping at the first query that throws. */
  function FillMonth<V>(m: map<Date, V>, read: Date -> Result<V>, from: Date): (r: map<Date, V>)
    ensures m.Keys <= r.Keys
    ensures forall d :: d in r && d !in m ==> InWalk(d, from)
    decreases LastDay(from) - from.day
  {
    match read(from)
    case Err(_) => m
    case Ok(v) =>
      if from.day < DaysInMonth(from.year, from.month) then FillMonth(m[from := v], read, NextDay(from))
      else m[from := v]
  }

  /** A whole job: return at once if the first day is already a key,
      otherwise walk the month from it. */
  function Populate<V>(m: map<Date, V>, read: Date -> Result<V>, start: Date): (r: map<Date, V>)
    ensures start in m ==> r == m
  {
    if start in m then m else FillMonth(m, read, start)
  }

  /** The walk touches no day outside it: such a key neither appears nor changes. */
  lemma {:induction false} FillMonthOutside<V>(m: map<Date, V>, read: Date -> Result<V>, from: Date, e: Date)
    requires !InWalk(e, from)
    ensures e in FillMonth(m, read, from) <==> e in m
    ensures e in m ==> FillMonth(m, read, from)[e] == m[e]
    decreases LastDay(from) - from.day
  {
    match read(from)
    case Err(_) =>
    case Ok(v) =>
      if from.day < DaysInMonth(from.year, from.month) {
        FillMonthOutside(m[from := v], read, NextDay(from), e);
      }
  }

  /** A day of the walk holds the store's value when every query up to it
      succeeded, and is left as it was when an earlier (or its own) query threw. */
  lemma {:induction false} FillMonthInside<V>(m: map<Date, V>, read: Date -> Result<V>, from: Date, e: Date)
    requires InWalk(e, from)
    ensures ReadsSucceed(read, from, e) ==> e in FillMonth(m, read, from) && read(e) == Ok(FillMonth(m, read, from)[e])
    ensures !ReadsSucceed(read, from, e) ==> (e in FillMonth(m, read, from) <==> e in m)
    ensures !ReadsSucceed(read, from, e) && e in m ==> FillMonth(m, read, from)[e] == m[e]
    decreases LastDay(from) - from.day
  {
    var r := FillMonth(m, read, from);
    match read(from)
    case Err(_) =>
      assert !ReadsSucceed(read, from, e) by { assert !read(from).Ok?; }
    case Ok(v) =>
      if e == from {
        assert ReadsSucceed(read, from, e);
        if from.day < DaysInMonth(from.year, from.month) {
          FillMonthOutside(m[from := v], read, NextDay(from), e);
        }
      } else {
        assert from.day < e.day;
        var next := NextDay(from);
        FillMonthInside(m[from := v], read, next, e);
        assert ReadsSucceed(read, from, e) <==> ReadsSucceed(read, next, e) by {
          if ReadsSucceed(read, next, e) {
            forall x: Date | SameMonth(x, from) && from.day <= x.day <= e.day
              ensures read(x).Ok?
            {
              if x.day == from.day { assert x == from; }
            }
          }
        }
      }
  }

  /** Two full walks of the same month in a row (two jobs that both passed
      the guard) leave the map as one walk does. */
  lemma FillMonthTwice<V>(m: map<Date, V>, read: Date -> Result<V>, from: Date)
    ensures FillMonth(FillMonth(m, read, from), read, from) == FillMonth(m, read, from)
  {
    var r1 := FillMonth(m, read, from);
    var r2 := FillMonth(r1, read, from);
    forall e: Date
      ensures e in r2 <==> e in r1
      ensures e in r1 ==> r2[e] == r1[e]
    {
      if InWalk(e, from) {
        FillMonthInside(m, read, from, e);
        FillMonthInside(r1, read, from, e);
      } else {
        FillMonthOutside(r1, read, from, e);
      }
    }
    assert r2.Keys == r1.Keys;
  }

  /** Running a job a second time changes nothing. */
  lemma PopulateIdempotent<V>(m: map<Date, V>, read: Date -> Result<V>, start: Date)
    ensures Populate(Populate(m, read, start), read, start) == Populate(m, read, start)
  {
    if start !in m {
      FillMonthTwice(m, read, start);
    }
  }

  /** A job only ever writes the store's own values, so a map that agrees
      with the store still does afterwards. */
  lemma PopulatePreservesAgreement<V>(m: map<Date, V>, read: Date -> Result<V>, start: Date)
    requires Agrees(m, read)
    ensures Agrees(Populate(m, read, start), read)
  {
    var r := Populate(m, read, start);
    forall d | d in r
      ensures read(d) == Ok(r[d])
    {
      if start !in m {
        if InWalk(d, start) {
          FillMonthInside(m, read, start, d);
        } else {
          FillMonthOutside(m, read, start, d);
        }
      }
    }
  }

  /** A job for a month it has not seen, whose queries all succeed, caches
      exactly the days of that month, each with the store's value, and
      leaves every other key as it was. */
  lemma PopulateFillsMonth<V>(m: map<Date, V>, read: Date -> Result<V>, start: Date)
    requires start.day == 1 && start !in m
    requires forall x: Date :: SameMonth(x, start) ==> read(x).Ok?
    ensures forall e: Date :: e in Populate(m, read, start) <==> e in m || SameMonth(e, start)
    ensures forall e: Date :: SameMonth(e, start) ==> read(e) == Ok(Populate(m, read, start)[e])
    ensures forall e: Date :: !SameMonth(e, start) && e in m ==> Populate(m, read, start)[e] == m[e]
  {
    var r := Populate(m, read, start);
    forall e: Date
      ensures e in r <==> e in m || SameMonth(e, start)
      ensures SameMonth(e, start) ==> e in r && read(e) == Ok(r[e])
      ensures !SameMonth(e, start) && e in m ==> r[e] == m[e]
    {
      if SameMonth(e, start) {
        FillMonthInside(m, read, start, e);
      } else {
        FillMonthOutside(m, read, start, e);
      }
    }
  }

  /** Every month of which `m` holds some day, it holds all of. */
  ghost predicate MonthClosed<V>(m: map<Date, V>) {
    forall d: Date, e: Date :: d in m && SameMonth(e, d) ==> e in m
  }

  /** A job never drops a key. */
  lemma PopulateKeepsKeys<V>(m: map<Date, V>, read: Date -> Result<V>, start: Date)
    ensures forall e :: e in m ==> e in Populate(m, read, start)
  {
    forall e | e in m
      ensures e in Populate(m, read, start)
    {
      if start !in m {
        if InWalk(e, start) {
          FillMonthInside(m, read, start, e);
        } else {
          FillMonthOutside(m, read, start, e);
        }
      }
    }
  }

  /** When the month's queries succeed, a job started on day 1 leaves the
      whole month cached and keeps whole months whole. */
  lemma PopulateKeepsMonthsClosed<V>(m: map<Date, V>, read: Date -> Result<V>, start: Date)
    requires MonthClosed(m) && start.day == 1
    requires forall x: Date :: SameMonth(x, start) ==> read(x).Ok?
    ensures MonthClosed(Populate(m, read, start))
    ensures forall e: Date :: SameMonth(e, start) ==> e in Populate(m, read, start)
  {
    if start !in m {
      PopulateFillsMonth(m, read, start);
    } else {
      forall e: Date | SameMonth(e, start)
        ensures e in m
      {
        assert start in m && SameMonth(e, start);
      }
    }
  }

  /** In a leap year such as 2024, a job for February 1 over a store that
      never throws caches exactly February 1 to 29: nothing of January or March. */
  lemma FebruaryOfLeapYear<V>(read: Date -> Result<V>, year: int)
    requires IsLeapYear(year)
    requires forall x: Date :: read(x).Ok?
    ensures YearMonthDay(year, 2, 29) in Populate(map[], read, YearMonthDay(year, 2, 1))
    ensures YearMonthDay(year, 1, 31) !in Populate(map[], read, YearMonthDay(year, 2, 1))
    ensures YearMonthDay(year, 3, 1) !in Populate(map[], read, YearMonthDay(year, 2, 1))
    ensures forall e: Date :: e in Populate(map[], read, YearMonthDay(year, 2, 1)) <==> e.year == year && e.month == 2
  {
    PopulateFillsMonth(map[], read, YearMonthDay(year, 2, 1));
    assert ValidDate(YearMonthDay(year, 2, 29));
  }

  /** The guard looks at day 1 only. A walk that threw on March 15 leaves
      March 1 to 14 cached and the 15th not; every later job for March then
      returns at once, even once the store answers again, so the rest of the
      month stays uncached until the next wipe. */
  lemma PartialMonthStaysPartial(v: Amount, err: DbError)
    ensures
      var flaky := (d: Date) => if d == YearMonthDay(2024, 3, 15) then Err(err) else Ok(v);
      var afterFailure := Populate(map[], flaky, YearMonthDay(2024, 3, 1));
      && YearMonthDay(2024, 3, 14) in afterFailure
      && YearMonthDay(2024, 3, 15) !in afterFailure
      && Populate(afterFailure, (d: Date) => Ok(v), YearMonthDay(2024, 3, 1)) == afterFailure
  {
    var flaky := (d: Date) => if d == YearMonthDay(2024, 3, 15) then Err(err) else Ok(v);
    var march1: Date := YearMonthDay(2024, 3, 1);
    var march14: Date := YearMonthDay(2024, 3, 14);
    var march15: Date := YearMonthDay(2024, 3, 15);
    FillMonthInside(map[], flaky, march1, march1);
    FillMonthInside(map[], flaky, march1, march14);
    FillMonthInside(map[], flaky, march1, march15);
    assert ReadsSucceed(flaky, march1, march1);
    assert ReadsSucceed(flaky, march1, march14) by {
      forall x: Date | SameMonth(x, march1) && 1 <= x.day <= 14 ensures flaky(x).Ok? {
        assert x != march15;
      }
    }
    assert !flaky(march15).Ok?;
  }
}
