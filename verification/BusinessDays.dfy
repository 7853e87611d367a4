/**
  Support's response deadline (src/modules/disputes/domain/response-deadline.ts): a loop that walks day by
  day and counts weekdays. It is compared with a definition that only counts, and with a closed form.
 */
module BusinessDays {

  const RESPONSE_BUSINESS_DAYS := 2
  const SUNDAY := 0
  const FRIDAY := 5
  const SATURDAY := 6
  const DAY_MS := 86_400_000

  /** Days since the first of January 1970, a Thursday. */
  function DayOf(ms: int): int
  {
    ms / DAY_MS
  }

  function Weekday(day: int): int
  {
    (day + 4) % 7
  }

  predicate IsBusinessDay(day: int)
  {
    Weekday(day) != SATURDAY && Weekday(day) != SUNDAY
  }

  /** How many of the `n` days after `day` are business days. */
  function BusinessIn(day: int, n: nat): nat
  {
    if n == 0 then 0 else BusinessIn(day, n - 1) + if IsBusinessDay(day + n) then 1 else 0
  }

  /** The first moment, whole days after `from`, with that many business days behind it. */
  ghost predicate Lands(from: int, days: int, to: int)
  {
    exists n: nat :: to == from + n * DAY_MS && FirstWith(DayOf(from), days, n)
  }

  ghost predicate FirstWith(day: int, days: int, n: nat)
  {
    && BusinessIn(day, n) == (if days < 0 then 0 else days)
    && forall m: nat :: m < n ==> BusinessIn(day, m) < days
  }

  /** Days from one day to the next business day. */
  function ToNext(day: int): int
  {
    if Weekday(day) == FRIDAY then 3 else if Weekday(day) == SATURDAY then 2 else 1
  }

  lemma {:induction false} BusinessGrows(day: int, m: nat, n: nat)
    requires m <= n
    ensures BusinessIn(day, m) <= BusinessIn(day, n)
    decreases n
  {
    if m < n {
      BusinessGrows(day, m, n - 1);
    }
  }

  /** Over a weekend, every day brings the next business day closer. */
  lemma WeekendEnds(day: int)
    requires !IsBusinessDay(day + 1)
    ensures ToNext(day + 1) < ToNext(day)
  {
  }

  method AddBusinessDays(from: int, days: int) returns (result: int)
    ensures Lands(from, days, result)
  {
    result := from;
    var remaining := days;
    ghost var n: nat := 0;
    while 0 < remaining
      invariant result == from + n * DAY_MS && DayOf(result) == DayOf(from) + n
      invariant days <= 0 ==> n == 0 && remaining == days
      invariant 0 < days ==> 0 <= remaining && BusinessIn(DayOf(from), n) == days - remaining
      invariant forall m: nat :: m < n ==> BusinessIn(DayOf(from), m) < days
      decreases remaining, ToNext(DayOf(result))
    {
      ghost var today := DayOf(result);
      result := result + DAY_MS;
      n := n + 1;
      assert DayOf(result) == today + 1;
      var weekday := Weekday(DayOf(result));
      if weekday != SATURDAY && weekday != SUNDAY {
        remaining := remaining - 1;
      } else {
        WeekendEnds(today);
      }
    }
    assert FirstWith(DayOf(from), days, n);
  }

  method ResponseDueFor(openedAt: int) returns (dueAt: int)
    ensures Lands(openedAt, RESPONSE_BUSINESS_DAYS, dueAt)
    ensures 2 * DAY_MS <= dueAt - openedAt <= 4 * DAY_MS
    ensures IsBusinessDay(DayOf(dueAt))
  {
    dueAt := AddBusinessDays(openedAt, RESPONSE_BUSINESS_DAYS);
    LandsInClosedForm(openedAt, RESPONSE_BUSINESS_DAYS, dueAt);
    LandsOnABusinessDay(openedAt, RESPONSE_BUSINESS_DAYS, dueAt);
  }

  /** There is one such moment. */
  lemma LandsOnce(from: int, days: int, first: int, second: int)
    requires Lands(from, days, first) && Lands(from, days, second)
    ensures first == second
  {
    var m: nat :| first == from + m * DAY_MS && FirstWith(DayOf(from), days, m);
    var n: nat :| second == from + n * DAY_MS && FirstWith(DayOf(from), days, n);
    assert !(m < n) && !(n < m);
  }

  lemma LandsOnABusinessDay(from: int, days: int, to: int)
    requires Lands(from, days, to) && 0 < days
    ensures IsBusinessDay(DayOf(to))
  {
    var n: nat :| to == from + n * DAY_MS && FirstWith(DayOf(from), days, n);
    assert BusinessIn(DayOf(from), n - 1) < days;
  }

  lemma {:induction false} BusinessConcat(day: int, m: nat, n: nat)
    ensures BusinessIn(day, m + n) == BusinessIn(day, m) + BusinessIn(day + m, n)
  {
    if n > 0 {
      BusinessConcat(day, m, n - 1);
    }
  }

  lemma FirstCompose(day: int, first: nat, second: nat, m: nat, n: nat)
    requires FirstWith(day, first, m) && FirstWith(day + m, second, n)
    ensures FirstWith(day, first + second, m + n)
  {
    BusinessConcat(day, m, n);
    forall k: nat | k < m + n ensures BusinessIn(day, k) < first + second {
      if k < m {
        assert BusinessIn(day, k) < first;
      } else {
        BusinessConcat(day, m, k - m);
        assert BusinessIn(day + m, k - m) < second;
      }
    }
  }

  /** Adding one number of business days and then another adds both. */
  lemma LandsCompose(from: int, first: nat, second: nat, mid: int, to: int)
    requires Lands(from, first, mid) && Lands(mid, second, to)
    ensures Lands(from, first + second, to)
  {
    var m: nat :| mid == from + m * DAY_MS && FirstWith(DayOf(from), first, m);
    var n: nat :| to == mid + n * DAY_MS && FirstWith(DayOf(mid), second, n);
    assert DayOf(mid) == DayOf(from) + m;
    FirstCompose(DayOf(from), first, second, m, n);
    assert to == from + (m + n) * DAY_MS;
  }

  lemma WeekdayShifts(day: int, weeks: int)
    ensures Weekday(day + 7 * weeks) == Weekday(day)
  {
  }

  lemma {:induction false} BusinessShift(day: int, weeks: int, n: nat)
    ensures BusinessIn(day + 7 * weeks, n) == BusinessIn(day, n)
  {
    if n > 0 {
      BusinessShift(day, weeks, n - 1);
      assert day + n + 7 * weeks == day + 7 * weeks + n;
      WeekdayShifts(day + n, weeks);
    }
  }

  /** Whole weeks move the start and the end alike. */
  lemma LandsShifts(from: int, days: int, to: int, weeks: int)
    requires Lands(from, days, to)
    ensures Lands(from + 7 * weeks * DAY_MS, days, to + 7 * weeks * DAY_MS)
  {
    var n: nat :| to == from + n * DAY_MS && FirstWith(DayOf(from), days, n);
    var later := from + 7 * weeks * DAY_MS;
    assert DayOf(later) == DayOf(from) + 7 * weeks;
    forall m: nat ensures BusinessIn(DayOf(later), m) == BusinessIn(DayOf(from), m) {
      BusinessShift(DayOf(from), weeks, m);
    }
    assert FirstWith(DayOf(later), days, n);
  }

  /** The walk without walking: weekends are counted from the weekday it starts on. */
  function CalendarDays(weekday: int, days: nat): int
  {
    if days == 0 then 0
    else if weekday == SUNDAY then days + 2 * ((days + 4) / 5) - 2
    else if weekday == SATURDAY then days + 2 * ((days + 4) / 5) - 1
    else days + 2 * ((weekday - 1 + days) / 5)
  }

  lemma WeekdayAfter(day: int, n: int, weeks: int, weekday: int)
    requires 0 <= weekday < 7 && Weekday(day) + n == 7 * weeks + weekday
    ensures Weekday(day + n) == weekday
  {
    assert day + n + 4 == 7 * ((day + 4) / 7 + weeks) + weekday;
  }

  /** One more business day is the next day, or the first one after a weekend. */
  lemma OneMore(day: int, days: nat)
    requires 0 < days
    ensures
      var before, n := CalendarDays(Weekday(day), days - 1), CalendarDays(Weekday(day), days);
      && 0 <= before < n <= before + 3
      && IsBusinessDay(day + n)
      && (before + 2 <= n ==> !IsBusinessDay(day + n - 1))
      && (before + 3 == n ==> !IsBusinessDay(day + n - 2))
  {
    var weekday, n := Weekday(day), CalendarDays(Weekday(day), days);
    var index := if weekday == SUNDAY || weekday == SATURDAY then days + 4 else weekday - 1 + days;
    var weeks := if weekday == SUNDAY then index / 5 - 1 else index / 5;
    WeekdayAfter(day, n, weeks, index % 5 + 1);
    if index % 5 == 0 {
      WeekdayAfter(day, n - 1, weeks, SUNDAY);
      WeekdayAfter(day, n - 2, weeks - 1, SATURDAY);
    }
  }

  lemma {:induction false} ClosedFormIsFirst(day: int, days: nat)
    ensures 0 <= CalendarDays(Weekday(day), days) && FirstWith(day, days, CalendarDays(Weekday(day), days))
  {
    if days > 0 {
      var before, n := CalendarDays(Weekday(day), days - 1), CalendarDays(Weekday(day), days);
      ClosedFormIsFirst(day, days - 1);
      OneMore(day, days);
      FirstAfter(day, days, before, n);
    }
  }

  lemma FirstAfter(day: int, days: nat, before: nat, n: nat)
    requires 0 < days && FirstWith(day, days - 1, before) && before < n <= before + 3
    requires IsBusinessDay(day + n)
    requires before + 2 <= n ==> !IsBusinessDay(day + n - 1)
    requires before + 3 == n ==> !IsBusinessDay(day + n - 2)
    ensures FirstWith(day, days, n)
  {
    assert BusinessIn(day, n - 1) == days - 1 by {
      if before + 2 <= n {
        assert BusinessIn(day, n - 1) == BusinessIn(day, n - 2);
      }
    }
    forall m: nat | m < n ensures BusinessIn(day, m) < days {
      BusinessGrows(day, m, n - 1);
    }
  }

  /** The loop's result in closed form, and so never later than two days for every five begun. */
  lemma LandsInClosedForm(from: int, days: nat, to: int)
    requires Lands(from, days, to)
    ensures to == from + CalendarDays(Weekday(DayOf(from)), days) * DAY_MS
    ensures days * DAY_MS <= to - from <= (days + 2 * ((days + 4) / 5)) * DAY_MS
  {
    var n := CalendarDays(Weekday(DayOf(from)), days);
    ClosedFormIsFirst(DayOf(from), days);
    assert Lands(from, days, from + n * DAY_MS);
    LandsOnce(from, days, to, from + n * DAY_MS);
  }

  /**
    The deadline told by the calendar. Midnight on Monday the first of January 2024 was 1704067200000; `weekday`
    counts from there, Monday first, over any number of weeks before or after, at any time of day.
   */
  lemma DeadlineByCalendar(weeks: int, weekday: nat, time: nat, due: int)
    requires weekday < 7 && time < 86_400_000
    requires Lands(1_704_067_200_000 + (7 * weeks + weekday) * 86_400_000 + time, RESPONSE_BUSINESS_DAYS, due)
    ensures due == 1_704_067_200_000 + (7 * weeks + weekday + [2, 2, 2, 4, 4, 3, 2][weekday]) * 86_400_000 + time
  {
    var start := 1_704_067_200_000 + (7 * weeks + weekday) * DAY_MS + time;
    assert DayOf(start) == 19_723 + 7 * weeks + weekday;
    assert Weekday(DayOf(start)) == (weekday + 1) % 7;
    LandsInClosedForm(start, RESPONSE_BUSINESS_DAYS, due);
  }
}
