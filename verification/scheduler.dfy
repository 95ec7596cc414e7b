/** The first-execution-date scheduler of a dollar-cost-averaging plan
    (computeFirstDate in app/components/DcaModal.jsx). "Today" is a
    parameter: the time zone that yields it is outside this model. */
module Scheduler {
  import opened Wrappers
  import opened Calendar

  /** The recurrence cycles a plan may have (the CYCLES list). */
  datatype Cycle = Daily | Weekly | Biweekly | Monthly

  /** The name a cycle is stored under. */
  function CycleName(c: Cycle): string {
    match c
    case Daily => "daily"
    case Weekly => "weekly"
    case Biweekly => "biweekly"
    case Monthly => "monthly"
  }

  /** Recognises a saved cycle name: Some exactly for the four names of CYCLES. */
  function CycleFromName(name: string): (r: Option<Cycle>)
    ensures r.Some? ==> CycleName(r.value) == name
  {
    if name == "daily" then Some(Daily)
    else if name == "weekly" then Some(Weekly)
    else if name == "biweekly" then Some(Biweekly)
    else if name == "monthly" then Some(Monthly)
    else None
  }

  /** Every cycle's name is recognised as that cycle, so CycleFromName is
      None exactly on the names of no cycle. */
  lemma CycleNameRoundTrip(c: Cycle, name: string)
    ensures CycleFromName(CycleName(c)) == Some(c)
    ensures CycleFromName(name).None? <==> forall c' :: CycleName(c') != name
  {
  }

  /** The cycles whose day selector is a weekday. */
  predicate IsWeekly(c: Cycle) {
    c == Weekly || c == Biweekly
  }

  /** The weekday the weekly branch aims at, given the selector (None when it
      is not a number) and today's weekday. */
  function WeeklyTarget(weeklyDay: Option<int>, todayDay: int): (t: int)
    ensures 1 <= t <= 5
    ensures weeklyDay.Some? && 1 <= weeklyDay.value <= 5 ==> t == weeklyDay.value
    ensures weeklyDay.Some? && !(1 <= weeklyDay.value <= 5) ==> t == 1
    ensures weeklyDay.None? ==> t == (if 1 <= todayDay <= 5 then todayDay else 1)
  {
    var t := if weeklyDay.Some? then weeklyDay.value else todayDay;
    if t < 1 || t > 5 then 1 else t
  }

  /** The number of days from weekday `from` forward to weekday `target`. */
  function DaysUntil(from: int, target: int): (k: nat)
    requires 0 <= from < 7 && 0 <= target < 7
    ensures k <= 6 && (from + k) % 7 == target
  {
    if from <= target then target - from else target - from + 7
  }

  /** No shorter distance reaches the target weekday. */
  lemma DaysUntilIsLeast(from: int, target: int, g: int)
    requires 0 <= from < 7 && 0 <= target < 7
    requires 0 <= g && (from + g) % 7 == target
    ensures DaysUntil(from, target) <= g
  {
  }

  /** Reference definition of the weekly first date: today moved forward by
      the distance from today's weekday to the target weekday. */
  function WeeklyFirstDate(weeklyDay: Option<int>, today: Date): Date
    requires ValidDate(today)
  {
    AddDays(today, DaysUntil(WeekDay(today), WeeklyTarget(weeklyDay, WeekDay(today))))
  }

  /** The day of the month the monthly branch aims at. */
  function MonthlyDay(monthlyDay: Option<int>, today: Date): (day: int)
    requires ValidDate(today)
    ensures 1 <= day <= 28
    ensures monthlyDay.Some? && 1 <= monthlyDay.value <= 28 ==> day == monthlyDay.value
    ensures !(monthlyDay.Some? && 1 <= monthlyDay.value <= 28) ==>
      (today.day <= 28 ==> day == today.day) && (today.day > 28 ==> day == 28)
  {
    if monthlyDay.Some? && 1 <= monthlyDay.value <= 28 then monthlyDay.value
    else Min(28, today.day)
  }

  /** The monthly first date: that day in today's month, or in the next
      month when it is already past. */
  function MonthlyFirstDate(monthlyDay: Option<int>, today: Date): (r: Date)
    requires ValidDate(today)
    ensures ValidDate(r)
  {
    var day := MonthlyDay(monthlyDay, today);
    var candidate := Date(today.year, today.month, day);
    if Before(candidate, today) then
      var next := NextMonth(today.year, today.month);
      Date(next.0, next.1, day)
    else
      candidate
  }

  /** The first execution date, for every cycle. */
  function FirstDate(cycle: Cycle, weeklyDay: Option<int>, monthlyDay: Option<int>, today: Date): (r: Date)
    requires ValidDate(today)
    ensures ValidDate(r) && !Before(r, today)
  {
    match cycle
    case Weekly | Biweekly =>
      WeeklyFirstDateIsNext(weeklyDay, today);
      WeeklyFirstDate(weeklyDay, today)
    case Monthly =>
      MonthlyFirstDateIsNext(monthlyDay, today);
      MonthlyFirstDate(monthlyDay, today)
    case Daily => today
  }

  /** computeFirstDate. The weekly and biweekly branch picks the target
      weekday and scans forward for it; the monthly branch and the default
      (daily) branch are expressions. */
  method ComputeFirstDate(cycle: Cycle, weeklyDay: Option<int>, monthlyDay: Option<int>, today: Date)
    returns (r: Date)
    requires ValidDate(today)
    ensures r == FirstDate(cycle, weeklyDay, monthlyDay, today)
  {
    if cycle == Weekly || cycle == Biweekly {
      var todayDay := WeekDay(today);
      var target := if weeklyDay.Some? then weeklyDay.value else todayDay;
      if target < 1 || target > 5 {
        target := 1;
      }
      r := ScanForWeekDay(today, target);
    } else if cycle == Monthly {
      r := MonthlyFirstDate(monthlyDay, today);
    } else {
      r := today;
    }
  }

  /** The scan of the weekly branch: step a day at a time from today, for at
      most 14 steps, until the candidate falls on the target weekday and is
      not before today. It stops after DaysUntil steps, fewer than 7, so the
      bound of 14 is never reached. */
  method ScanForWeekDay(today: Date, target: int) returns (candidate: Date)
    requires ValidDate(today) && 1 <= target <= 5
    ensures candidate == AddDays(today, DaysUntil(WeekDay(today), target))
  {
    ghost var offset := DaysUntil(WeekDay(today), target);
    candidate := today;
    var i := 0;
    while i < 14 && !(WeekDay(candidate) == target && !Before(candidate, today))
      invariant 0 <= i <= offset
      invariant candidate == AddDays(today, i)
      decreases 14 - i
    {
      WeekDayAfter(today, i);
      AddDaysNotBefore(today, i);
      assert WeekDay(candidate) != target;
      assert i != offset;
      AddDaysSucc(today, i);
      candidate := NextDay(candidate);
      i := i + 1;
    }
    WeekDayAfter(today, i);
    DaysUntilIsLeast(WeekDay(today), target, i);
  }

  // ---- What the first date is ----

  /** The weekly first date falls on the target weekday. */
  lemma WeeklyFirstDateWeekDay(weeklyDay: Option<int>, today: Date)
    requires ValidDate(today)
    ensures WeekDay(WeeklyFirstDate(weeklyDay, today)) == WeeklyTarget(weeklyDay, WeekDay(today))
  {
    var w := WeekDay(today);
    WeekDayAfter(today, DaysUntil(w, WeeklyTarget(weeklyDay, w)));
  }

  /** The weekly first date lies DaysUntil(w, t) days after today, for
      today's weekday w and the target t. */
  lemma WeeklyFirstDateNumber(weeklyDay: Option<int>, today: Date)
    requires ValidDate(today)
    ensures var w := WeekDay(today);
      DayNumber(WeeklyFirstDate(weeklyDay, today))
        == DayNumber(today) + DaysUntil(w, WeeklyTarget(weeklyDay, w))
  {
    var w := WeekDay(today);
    AddDaysNumber(today, DaysUntil(w, WeeklyTarget(weeklyDay, w)));
  }

  /** The weekly first date falls on the target weekday, on or after today
      and at most six days later. */
  lemma WeeklyFirstDateIsNext(weeklyDay: Option<int>, today: Date)
    requires ValidDate(today)
    ensures var r := WeeklyFirstDate(weeklyDay, today);
      ValidDate(r) && !Before(r, today) &&
      WeekDay(r) == WeeklyTarget(weeklyDay, WeekDay(today)) &&
      DayNumber(today) <= DayNumber(r) <= DayNumber(today) + 6
  {
    WeeklyFirstDateWeekDay(weeklyDay, today);
    WeeklyFirstDateNumber(weeklyDay, today);
    var w := WeekDay(today);
    AddDaysNotBefore(today, DaysUntil(w, WeeklyTarget(weeklyDay, w)));
  }

  /** No date from today on reaches the target weekday before the weekly
      first date does. */
  lemma WeeklyFirstDateIsEarliest(weeklyDay: Option<int>, today: Date, d: Date)
    requires ValidDate(today) && ValidDate(d)
    requires !Before(d, today) && WeekDay(d) == WeeklyTarget(weeklyDay, WeekDay(today))
    ensures !Before(d, WeeklyFirstDate(weeklyDay, today))
  {
    var w := WeekDay(today);
    var t := WeeklyTarget(weeklyDay, w);
    DayNumberOrder(d, today);
    var gap := DayNumber(d) - DayNumber(today);
    WeekDayByNumber(today, d);
    DaysUntilIsLeast(w, t, gap);
    WeeklyFirstDateNumber(weeklyDay, today);
    DayNumberOrder(d, WeeklyFirstDate(weeklyDay, today));
  }

  /** The monthly first date is on the chosen day of the month, on or after
      today, in today's month or the next one. */
  lemma MonthlyFirstDateIsNext(monthlyDay: Option<int>, today: Date)
    requires ValidDate(today)
    ensures var r := MonthlyFirstDate(monthlyDay, today);
      ValidDate(r) && !Before(r, today) && r.day == MonthlyDay(monthlyDay, today) &&
      (r.year, r.month) == (if r.day < today.day then NextMonth(today.year, today.month)
                            else (today.year, today.month))
  {
  }

  /** No date from today on has the chosen day of the month before the
      monthly first date does. */
  lemma MonthlyFirstDateIsEarliest(monthlyDay: Option<int>, today: Date, d: Date)
    requires ValidDate(today) && ValidDate(d)
    requires !Before(d, today) && d.day == MonthlyDay(monthlyDay, today)
    ensures !Before(d, MonthlyFirstDate(monthlyDay, today))
  {
  }

  /** The daily cycle returns today, whatever the selectors. */
  lemma DailyIsToday(weeklyDay: Option<int>, monthlyDay: Option<int>, today: Date)
    requires ValidDate(today)
    ensures FirstDate(Daily, weeklyDay, monthlyDay, today) == today
  {
  }

  /** Weekly and biweekly plans get the same first date: the two-week spacing
      is not part of this computation. */
  lemma BiweeklySameAsWeekly(weeklyDay: Option<int>, monthlyDay: Option<int>, today: Date)
    requires ValidDate(today)
    ensures FirstDate(Biweekly, weeklyDay, monthlyDay, today)
         == FirstDate(Weekly, weeklyDay, monthlyDay, today)
  {
  }

  // ---- Worked examples (dates of May 2024: the 15th is a Wednesday) ----

  lemma WeekDayExamples()
    ensures WeekDay(Date(2024, 5, 15)) == 3
    ensures WeekDay(Date(2024, 5, 18)) == 6
  {
    assert DaysBeforeYear(2024) == 738885;
    assert DaysBeforeMonth(2024, 5) == 121;
  }

  lemma WeeklyExamples()
    ensures FirstDate(Weekly, Some(5), None, Date(2024, 5, 15)) == Date(2024, 5, 17)
    ensures FirstDate(Weekly, Some(3), None, Date(2024, 5, 15)) == Date(2024, 5, 15)
    ensures FirstDate(Biweekly, None, None, Date(2024, 5, 18)) == Date(2024, 5, 20)
    ensures FirstDate(Weekly, Some(6), None, Date(2024, 5, 18)) == Date(2024, 5, 20)
    ensures FirstDate(Weekly, Some(7), None, Date(2024, 5, 15)) == Date(2024, 5, 20)
  {
    WeekDayExamples();
    assert AddDays(Date(2024, 5, 15), 2) == Date(2024, 5, 17);
    assert AddDays(Date(2024, 5, 18), 2) == Date(2024, 5, 20);
    assert AddDays(Date(2024, 5, 15), 5) == Date(2024, 5, 20);
  }

  lemma MonthlyExamples()
    ensures FirstDate(Monthly, None, Some(15), Date(2024, 5, 15)) == Date(2024, 5, 15)
    ensures FirstDate(Monthly, None, Some(20), Date(2024, 5, 15)) == Date(2024, 5, 20)
    ensures FirstDate(Monthly, None, Some(10), Date(2024, 5, 15)) == Date(2024, 6, 10)
    ensures FirstDate(Monthly, None, None, Date(2024, 5, 31)) == Date(2024, 6, 28)
    ensures FirstDate(Monthly, None, Some(31), Date(2024, 5, 31)) == Date(2024, 6, 28)
    ensures FirstDate(Monthly, None, Some(10), Date(2024, 12, 15)) == Date(2025, 1, 10)
    ensures FirstDate(Daily, Some(5), Some(10), Date(2024, 5, 15)) == Date(2024, 5, 15)
  {
  }
}
