/** Working-day arithmetic over weekends and a finite holiday set
    (src/planner/domain/calendar/rules.py).

    A date is its proleptic Gregorian ordinal, so day 1 is a Monday. */
module Calendar {
  import opened Wrappers

  type Date = int

  datatype CalendarError = NotPositive

  datatype WeekendCalendar = WeekendCalendar(holidays: set<Date>) {

    /** 0 is Monday, 5 and 6 are Saturday and Sunday. */
    function Weekday(day: Date): int {
      (day + 6) % 7
    }

    predicate IsWorkingDay(day: Date) {
      Weekday(day) < 5 && day !in holidays
    }

    function WeekendLeft(day: Date): nat {
      if Weekday(day) < 5 then 0 else 7 - Weekday(day)
    }

    ghost function HolidaysFrom(day: Date): set<Date> {
      set h | h in holidays && day <= h
    }

    /** Stepping past a day off uses up that holiday, or else leaves the holidays ahead alone. */
    lemma SearchStep(day: Date)
      ensures if day in holidays then HolidaysFrom(day + 1) < HolidaysFrom(day)
              else HolidaysFrom(day + 1) == HolidaysFrom(day)
    {
      if day in holidays {
        assert day in HolidaysFrom(day) && day !in HolidaysFrom(day + 1);
      }
      assert HolidaysFrom(day + 1) == HolidaysFrom(day) - {day};
    }

    /** The first working day on or after `day`. The search ends because it uses up a holiday
        or a weekend day at every step. */
    function FirstFrom(day: Date): (r: Date)
      ensures day <= r && IsWorkingDay(r)
      ensures forall d :: day <= d < r ==> !IsWorkingDay(d)
      decreases HolidaysFrom(day), WeekendLeft(day)
    {
      if IsWorkingDay(day) then day
      else
        SearchStep(day);
        FirstFrom(day + 1)
    }

    /** The number of working days in [a, b). */
    function BusinessDays(a: Date, b: Date): (n: nat)
      ensures b <= a ==> n == 0
      decreases b - a
    {
      if b <= a then 0
      else BusinessDays(a, b - 1) + if IsWorkingDay(b - 1) then 1 else 0
    }

    /** The n-th working day on or after `start`, counted from one. */
    function Nth(start: Date, n: nat): (r: Date)
      requires 1 <= n
      ensures start <= r && IsWorkingDay(r)
      decreases n
    {
      if n == 1 then FirstFrom(start) else FirstFrom(Nth(start, n - 1) + 1)
    }

    /** A day from Monday to Friday that is no holiday; day 1 is a Monday. */
    lemma WorkingDayMeaning(day: Date)
      ensures IsWorkingDay(day) <==> day !in holidays && 1 <= day % 7 <= 5
    {
    }

    /** The first working day, without naming one: it is from Monday to Friday and no holiday, and
        every day before it is a holiday or on a weekend. */
    lemma FirstFromMeaning(day: Date)
      ensures FirstFrom(day) !in holidays && 1 <= FirstFrom(day) % 7 <= 5
      ensures forall d :: day <= d < FirstFrom(day) ==> d in holidays || d % 7 == 6 || d % 7 == 0
    {
      WorkingDayMeaning(FirstFrom(day));
      forall d | day <= d < FirstFrom(day) ensures d in holidays || d % 7 == 6 || d % 7 == 0 {
        WorkingDayMeaning(d);
      }
    }

    method NextWorkingDay(day: Date) returns (d: Date)
      ensures day < d && IsWorkingDay(d)
      ensures forall x :: day < x < d ==> !IsWorkingDay(x)
      ensures d !in holidays && 1 <= d % 7 <= 5
      ensures forall x :: day < x < d ==> x in holidays || x % 7 == 6 || x % 7 == 0
      ensures d == FirstFrom(day + 1)
    {
      d := day + 1;
      while !IsWorkingDay(d)
        invariant day < d
        invariant forall x :: day < x < d ==> !IsWorkingDay(x)
        decreases HolidaysFrom(d), WeekendLeft(d)
      {
        SearchStep(d);
        d := d + 1;
      }
      WorkingDayMeaning(d);
      forall x | day < x < d ensures x in holidays || x % 7 == 6 || x % 7 == 0 {
        WorkingDayMeaning(x);
      }
    }

    method BusinessDaysBetween(a: Date, b: Date) returns (n: nat)
      ensures n == BusinessDays(a, b)
    {
      n := 0;
      if b <= a {
        return;
      }
      var d := a;
      while d < b
        invariant a <= d <= b
        invariant n == BusinessDays(a, d)
      {
        if IsWorkingDay(d) {
          n := n + 1;
        }
        d := d + 1;
      }
    }

    method FirstWorkingDay(start: Date) returns (d: Date)
      ensures d == FirstFrom(start)
    {
      if IsWorkingDay(start) {
        return start;
      }
      d := NextWorkingDay(start);
    }

    method NthWorkingDay(start: Date, n: int) returns (r: Result<Date, CalendarError>)
      ensures n < 1 ==> r == Failure(NotPositive)
      ensures 1 <= n ==> r == Success(Nth(start, n))
    {
      if n < 1 {
        return Failure(NotPositive);
      }
      var day := FirstWorkingDay(start);
      for i := 0 to n - 1
        invariant day == Nth(start, i + 1)
      {
        day := NextWorkingDay(day);
      }
      r := Success(day);
    }

    // Counting ------------------------------------------------------------

    ghost function WorkingDays(a: Date, b: Date): set<Date> {
      set d | a <= d < b && d !in holidays && 1 <= d % 7 <= 5
    }

    /** The count is the number of those days in [a, b). */
    lemma {:induction false} BusinessDaysIsCount(a: Date, b: Date)
      ensures BusinessDays(a, b) == |set d | a <= d < b && d !in holidays && 1 <= d % 7 <= 5|
      decreases b - a
    {
      if b <= a {
        assert WorkingDays(a, b) == {};
      } else {
        BusinessDaysIsCount(a, b - 1);
        WorkingDayMeaning(b - 1);
        assert WorkingDays(a, b) == WorkingDays(a, b - 1) + if IsWorkingDay(b - 1) then {b - 1} else {};
      }
    }

    lemma {:induction false} BusinessDaysAdditive(a: Date, b: Date, c: Date)
      requires a <= b <= c
      ensures BusinessDays(a, c) == BusinessDays(a, b) + BusinessDays(b, c)
      decreases c - b
    {
      if b < c {
        BusinessDaysAdditive(a, b, c - 1);
      }
    }

    lemma {:induction false} NoWorkingDays(a: Date, b: Date)
      requires forall d :: a <= d < b ==> !IsWorkingDay(d)
      ensures BusinessDays(a, b) == 0
      decreases b - a
    {
      if a < b {
        NoWorkingDays(a, b - 1);
      }
    }

    /** The gap between a working day and the next one holds one working day. */
    lemma {:induction false} StepCount(a: Date, d: Date)
      requires a <= d && IsWorkingDay(d)
      ensures BusinessDays(a, FirstFrom(d + 1)) == BusinessDays(a, d) + 1
    {
      BusinessDaysAdditive(a, d + 1, FirstFrom(d + 1));
      NoWorkingDays(d + 1, FirstFrom(d + 1));
    }

    lemma {:induction false} NthCount(start: Date, n: nat)
      requires 1 <= n
      ensures BusinessDays(start, Nth(start, n)) == n - 1
    {
      if n == 1 {
        NoWorkingDays(start, FirstFrom(start));
      } else {
        NthCount(start, n - 1);
        StepCount(start, Nth(start, n - 1));
      }
    }

    lemma CountMonotone(a: Date, b: Date, c: Date)
      requires b <= c
      ensures BusinessDays(a, b) <= BusinessDays(a, c)
    {
      if a <= b {
        BusinessDaysAdditive(a, b, c);
      }
    }

    /** Counting from `a`, a working day is determined by its count. */
    lemma {:induction false} CountInjective(a: Date, d: Date, e: Date)
      requires a <= d && a <= e && IsWorkingDay(d) && IsWorkingDay(e)
      ensures d < e <==> BusinessDays(a, d) < BusinessDays(a, e)
      ensures d == e <==> BusinessDays(a, d) == BusinessDays(a, e)
    {
      if d < e {
        CountMonotone(a, d + 1, e);
      } else if e < d {
        CountMonotone(a, e + 1, d);
      }
    }

    /** `Nth` inverts the count: it is the only working day with n - 1 working days before it. */
    lemma {:induction false} NthInverse(start: Date, n: nat, d: Date)
      requires 1 <= n
      ensures d == Nth(start, n) <==>
              start <= d && IsWorkingDay(d) && BusinessDays(start, d) == n - 1
    {
      NthCount(start, n);
      if start <= d && IsWorkingDay(d) {
        CountInjective(start, d, Nth(start, n));
      }
    }

    lemma {:induction false} NthStrictlyMonotone(start: Date, m: nat, n: nat)
      requires 1 <= m && 1 <= n
      ensures m < n <==> Nth(start, m) < Nth(start, n)
    {
      NthCount(start, m);
      NthCount(start, n);
      CountInjective(start, Nth(start, m), Nth(start, n));
    }

    lemma {:induction false} NthMonotoneInStart(s: Date, t: Date, n: nat)
      requires s <= t && 1 <= n
      ensures Nth(s, n) <= Nth(t, n)
    {
      NthCount(s, n);
      NthCount(t, n);
      BusinessDaysAdditive(s, t, Nth(t, n));
      CountInjective(s, Nth(s, n), Nth(t, n));
    }

    lemma {:induction false} NthCompose(start: Date, a: nat, b: nat)
      requires 1 <= a && 1 <= b
      ensures Nth(Nth(start, a), b) == Nth(start, a + b - 1)
    {
      var m := Nth(start, a);
      NthCount(start, a);
      NthCount(m, b);
      BusinessDaysAdditive(start, m, Nth(m, b));
      NthInverse(start, a + b - 1, Nth(m, b));
    }

    /** Counting on from the day after the a-th working day. */
    lemma {:induction false} NthAfter(start: Date, a: nat, b: nat)
      requires 1 <= a && 1 <= b
      ensures Nth(Nth(start, a) + 1, b) == Nth(start, a + b)
    {
      var m := Nth(start, a);
      NthCount(start, a);
      NthCount(m + 1, b);
      BusinessDaysAdditive(start, m + 1, Nth(m + 1, b));
      NthInverse(start, a + b, Nth(m + 1, b));
    }

    /** A working day lies on or after the n-th exactly when n - 1 working days precede it. */
    lemma {:induction false} AtLeastNth(start: Date, n: nat, d: Date)
      requires 1 <= n && start <= d && IsWorkingDay(d)
      ensures Nth(start, n) <= d <==> n - 1 <= BusinessDays(start, d)
    {
      NthCount(start, n);
      CountInjective(start, d, Nth(start, n));
    }
  }
}
