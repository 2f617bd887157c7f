/** Working days: Thursday, Friday and a finite set of official holidays are off. A day is its
    number of days since 1970-01-01, a Thursday. */
module Calendar {

  /** getUTCDay: 0 is Sunday, 4 is Thursday. */
  function Weekday(d: int): int { (d + 4) % 7 }

  predicate IsWeekend(d: int) { Weekday(d) == 4 || Weekday(d) == 5 }

  predicate IsWorkingDay(holidays: set<int>, d: int) {
    !IsWeekend(d) && d !in holidays
  }

  /** Day 0 was a Thursday and day 1 a Friday; those two days of every week are off, in the past as well. */
  lemma WorkingDayIff(holidays: set<int>, d: int)
    ensures IsWorkingDay(holidays, d) <==> d !in holidays && !exists week: int :: d == 7 * week || d == 7 * week + 1
  {
    assert d == 7 * (d / 7) + d % 7;
    assert Weekday(d) == (d % 7 + 4) % 7;
    if d % 7 == 0 || d % 7 == 1 {
      assert d == 7 * (d / 7) || d == 7 * (d / 7) + 1;
    }
  }

  /** Working days in the half-open interval (a, b]. */
  function WorkingDays(holidays: set<int>, a: int, b: int): nat
    decreases b - a
  {
    if b <= a then 0 else WorkingDays(holidays, a, b - 1) + (if IsWorkingDay(holidays, b) then 1 else 0)
  }

  /** What it means to be the nth working day after d. */
  predicate IsNthAfter(holidays: set<int>, d: int, n: int, r: int) {
    if n <= 0 then r == d
    else r > d && WorkingDays(holidays, d, r) == n && IsWorkingDay(holidays, r)
  }

  ghost function Ahead(holidays: set<int>, d: int): set<int> {
    set h | h in holidays && h > d
  }

  /** Weekend days that follow d without a break. */
  function WeekendAhead(d: int): nat {
    if Weekday(d + 1) == 4 then 2 else if Weekday(d + 1) == 5 then 1 else 0
  }

  /** The loop of addWorkingDays ends for every holiday set, on the nth working day, within the bound. */
  method AddWorkingDays(holidays: set<int>, start: int, count: int) returns (day: int)
    ensures IsNthAfter(holidays, start, count, day)
    ensures count > 0 ==> day <= start + 7 * ((count + |holidays| + 4) / 5)
  {
    day := start;
    var remaining := count;
    while remaining > 0
      invariant day >= start && remaining <= count
      invariant count <= 0 ==> day == start && remaining == count
      invariant count > 0 ==> remaining >= 0 && WorkingDays(holidays, start, day) == count - remaining
      invariant 0 <= remaining < count ==> day > start && (remaining == 0 ==> IsWorkingDay(holidays, day))
      decreases remaining, Ahead(holidays, day), WeekendAhead(day)
    {
      ghost var before := day;
      day := day + 1;
      if IsWorkingDay(holidays, day) {
        remaining := remaining - 1;
      } else {
        assert Ahead(holidays, day) <= Ahead(holidays, before);
        if day in holidays {
          assert day in Ahead(holidays, before) && day !in Ahead(holidays, day);
        } else {
          assert Ahead(holidays, day) == Ahead(holidays, before);
        }
      }
    }
    if count > 0 {
      WithinBound(holidays, start, count, day);
    }
  }

  // ---------------------------------------------------------------- laws

  lemma {:induction false} WorkingDaysSplit(holidays: set<int>, a: int, b: int, c: int)
    requires a <= b <= c
    ensures WorkingDays(holidays, a, c) == WorkingDays(holidays, a, b) + WorkingDays(holidays, b, c)
    decreases c - b
  {
    if b < c {
      WorkingDaysSplit(holidays, a, b, c - 1);
    }
  }

  /** Fewer working days means strictly earlier. */
  lemma EarlierIfFewer(holidays: set<int>, d: int, m: int, n: int, r: int, t: int)
    requires 0 <= m < n && IsNthAfter(holidays, d, m, r) && IsNthAfter(holidays, d, n, t)
    ensures r < t
  {
    if t <= r {
      WorkingDaysSplit(holidays, d, t, r);
    }
  }

  /** The nth working day is unique. */
  lemma NthIsUnique(holidays: set<int>, d: int, n: int, r: int, t: int)
    requires IsNthAfter(holidays, d, n, r) && IsNthAfter(holidays, d, n, t)
    ensures r == t
  {
    if n > 0 && r != t {
      var lo, hi := if r < t then r else t, if r < t then t else r;
      WorkingDaysSplit(holidays, d, lo, hi - 1);
      WorkingDaysSplit(holidays, d, hi - 1, hi);
    }
  }

  /** Adding m and then n working days is adding m + n. */
  lemma AddingTwice(holidays: set<int>, d: int, m: int, n: int, r: int, t: int)
    requires m >= 0 && n >= 0 && IsNthAfter(holidays, d, m, r) && IsNthAfter(holidays, r, n, t)
    ensures IsNthAfter(holidays, d, m + n, t)
  {
    WorkingDaysSplit(holidays, d, r, t);
  }

  /** A later start never ends earlier; it ends strictly later exactly when a working day was skipped. */
  lemma LaterStart(holidays: set<int>, d: int, e: int, n: int, r: int, t: int)
    requires d <= e && n > 0 && IsNthAfter(holidays, d, n, r) && IsNthAfter(holidays, e, n, t)
    ensures r <= t
    ensures r < t <==> WorkingDays(holidays, d, e) > 0
  {
    WorkingDaysSplit(holidays, d, e, t);
    if t < r {
      WorkingDaysSplit(holidays, d, t, r - 1);
      WorkingDaysSplit(holidays, d, r - 1, r);
    } else if r < t {
      WorkingDaysSplit(holidays, d, r, t - 1);
      WorkingDaysSplit(holidays, d, t - 1, t);
    }
  }

  // ---------------------------------------------------------------- the bound

  /** Holidays in (a, b]. */
  ghost function Within(holidays: set<int>, a: int, b: int): set<int> {
    set h | h in holidays && a < h <= b
  }

  /** Days of (a, b] outside weekends. */
  function Weekdays(a: int, b: int): nat
    decreases b - a
  {
    if b <= a then 0 else Weekdays(a, b - 1) + (if IsWeekend(b) then 0 else 1)
  }

  lemma {:induction false} HolidaysCost(holidays: set<int>, a: int, b: int)
    requires a <= b
    ensures WorkingDays(holidays, a, b) + |Within(holidays, a, b)| >= Weekdays(a, b)
    decreases b - a
  {
    if a < b {
      HolidaysCost(holidays, a, b - 1);
      var less, more := Within(holidays, a, b - 1), Within(holidays, a, b);
      if b in holidays {
        assert more == less + {b};
      } else {
        assert more == less;
      }
    }
  }

  lemma {:induction false} WeekdaysSplit(a: int, b: int, c: int)
    requires a <= b <= c
    ensures Weekdays(a, c) == Weekdays(a, b) + Weekdays(b, c)
    decreases c - b
  {
    if b < c {
      WeekdaysSplit(a, b, c - 1);
    }
  }

  lemma NextDay(a: int, d: int)
    requires a <= d
    ensures Weekday(d + 1) == if Weekday(d) == 6 then 0 else Weekday(d) + 1
    ensures 0 <= Weekday(d) <= 6
    ensures Weekdays(a, d + 1) == Weekdays(a, d) + (if IsWeekend(d + 1) then 0 else 1)
  {
  }

  /** Any seven days in a row hold five weekdays. */
  lemma WeekHasFive(a: int)
    ensures Weekdays(a, a + 7) == 5
  {
    assert Weekdays(a, a) == 0;
    NextDay(a, a);
    NextDay(a, a + 1);
    NextDay(a, a + 2);
    NextDay(a, a + 3);
    NextDay(a, a + 4);
    NextDay(a, a + 5);
    NextDay(a, a + 6);
    hide Weekday, Weekdays;
  }

  lemma {:induction false} WeeksHaveFives(a: int, k: nat)
    ensures Weekdays(a, a + 7 * k) == 5 * k
  {
    if k > 0 {
      WeeksHaveFives(a, k - 1);
      WeekHasFive(a + 7 * (k - 1));
      WeekdaysSplit(a, a + 7 * (k - 1), a + 7 * k);
    }
  }

  lemma WithinCount(holidays: set<int>, a: int, b: int)
    ensures |Within(holidays, a, b)| <= |holidays|
  {
    var some := Within(holidays, a, b);
    assert holidays == some + (holidays - some);
  }

  /** The nth working day comes within ceil((n + H) / 5) weeks, for H holidays. */
  lemma WithinBound(holidays: set<int>, d: int, n: int, r: int)
    requires n > 0 && IsNthAfter(holidays, d, n, r)
    ensures r <= d + 7 * ((n + |holidays| + 4) / 5)
  {
    var k := (n + |holidays| + 4) / 5;
    var end := d + 7 * k;
    WeeksHaveFives(d, k);
    HolidaysCost(holidays, d, end);
    WithinCount(holidays, d, end);
    if r > end {
      WorkingDaysSplit(holidays, d, end, r - 1);
    }
  }
}
