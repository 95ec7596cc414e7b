# Dollar-cost-averaging plan form: a Dafny model

This project models the core of the fund tracker's dollar-cost-averaging
("DCA", 定投) plan dialog, `app/components/DcaModal.jsx`. A user sets up a
recurring purchase of a fund. The plan has an amount, a fee rate, a cycle
(daily, weekly, biweekly or monthly), a weekday or day-of-month selector, an
enabled flag and a first execution date.

The model has three parts, one Dafny module each:

- `Calendar` (`calendar.dfy`). The proleptic Gregorian calendar that the
  component uses through dayjs: next day, adding days, next month,
  day-of-week numbering (0 is Sunday) and `isBefore`. All of it rests on an
  independent day count from 0001-01-01.
- `Scheduler` (`scheduler.dfy`). `computeFirstDate`: the first execution date
  of a plan, given its cycle and selectors and "today" in the app's time zone.
  It is written twice:
  - as the imperative method of the source, with the weekly 14-day scan loop;
  - as a specification function.

  The method is proved equal to the function. Lemmas state what that date is:
  - the earliest date on or after today on the selected weekday (Monday to Friday);
  - the selected day of this month, or of next month once that day has passed.
- `PlanForm` (`plan_form.dfy`). The dialog's draft state, as a class `DcaDraft`
  whose fields are the React state variables:
  - its initial state;
  - the hydration effect that loads a saved plan;
  - the recompute effect that follows every change of cycle or selector;
  - the field setters of the form;
  - `isValid`;
  - `handleSubmit`, which builds the plan passed to `onConfirm`.

  Each state change ends in the state the React effects settle in. The
  invariant `Scheduled` (the first date is the scheduler's answer for the
  current cycle and selectors) holds after every selector change and after
  hydration. A click on the value already held is no change: React skips it
  and the first date stays as it was.

`wrappers.dfy` holds the `Option` type. It stands for JavaScript's
`null`/`undefined`/NaN.

Behaviour of the code worth knowing:

- **A saved first date is not kept.** On hydration the dialog stores the
  saved `firstDate` (lines 119 and 121). Then the recompute effect (line 126)
  runs after the same mount, and it overwrites that date with a freshly
  computed one. `Hydrate` therefore ends in `Scheduled(today)` whatever the
  saved plan says, and `SavedFirstDateExample` shows a saved 2024-07-05
  replaced by 2024-06-05.
- **The saved selectors are kept even when the cycle is not.** They are
  adopted whenever they are numbers (lines 111-116), even when the saved cycle
  is unknown and is therefore ignored.
- **An out-of-range weekly selector falls back to Monday.** A number outside
  1..5 becomes 1 (the test on line 49, the assignment on line 51), not today's weekday. Today's weekday is used only
  when the selector is not a number (line 48).
- **Submitting changes nothing.** `Submit` validates the current fields and
  emits a plan; it leaves the draft unchanged and may be called again.

## Model

| member | source | states |
|---|---|---|
| Calendar.NextDayNumber | app/components/DcaModal.jsx:58 | The day after a valid date is a valid date whose day number is exactly one more, across month ends, year ends and 29 February. |
| Calendar.AddDaysNumber | app/components/DcaModal.jsx:58 | Adding n days, one day at a time as the scan does, advances the day number by exactly n. |
| Calendar.AddDaysSucc | app/components/DcaModal.jsx:58 | Adding n + 1 days is the next day of adding n days, which is how the scan's candidate moves. |
| Calendar.WeekDayAfter | app/components/DcaModal.jsx:47 | n days after a date of weekday w (0 Sunday .. 6 Saturday), the weekday is (w + n) mod 7. |
| Calendar.DayNumberOrder | app/components/DcaModal.jsx:55 | isBefore on (year, month, day) holds exactly when the first date's day number is smaller, and two valid dates are equal exactly when their day numbers are. |
| Calendar.AddDaysNotBefore | app/components/DcaModal.jsx:55 | A date reached by adding days is never before its start, and is strictly after it when at least one day is added. So the scan's "not before today" test always holds. |
| Calendar.NextMonth | app/components/DcaModal.jsx:72 | The month after m starts on the day after the last day of month m, so it is the immediately following month, with December rolling over to January of the next year. |
| Scheduler.CycleFromName | app/components/DcaModal.jsx:28-33 | A saved cycle name is recognised only as the cycle stored under that name. |
| Scheduler.CycleNameRoundTrip | app/components/DcaModal.jsx:117 | Every cycle's name is recognised as that cycle, and a name is rejected exactly when no cycle has it (the CYCLES.some test). |
| Scheduler.WeeklyTarget | app/components/DcaModal.jsx:47-52 | The target weekday is in 1..5. It is the selector when that is 1..5 and Monday when the selector is another number. With no selector it is today's weekday on a weekday and Monday at the weekend. |
| Scheduler.DaysUntil | app/components/DcaModal.jsx:53-59 | The distance from one weekday to another is at most 6 days and lands on the target weekday. |
| Scheduler.DaysUntilIsLeast | app/components/DcaModal.jsx:53-59 | No smaller non-negative distance lands on the target weekday. |
| Scheduler.ScanForWeekDay | app/components/DcaModal.jsx:53-60 | The 14-step loop stops at today plus the least distance to the target weekday. It never exhausts its 14 steps. |
| Scheduler.ComputeFirstDate | app/components/DcaModal.jsx:43-78 | The imperative computeFirstDate returns exactly the reference first date for every cycle, selector pair and today. |
| Scheduler.MonthlyDay | app/components/DcaModal.jsx:64-68 | The monthly target day is in 1..28. It is the selector when that is a number in 1..28. Otherwise it is today's day, or 28 when today is the 29th or later. |
| Scheduler.MonthlyFirstDate | app/components/DcaModal.jsx:69-74 | The monthly first date is a valid calendar date. |
| Scheduler.FirstDate | app/components/DcaModal.jsx:43-78 | For every cycle the first date is a valid date that is not before today. |
| Scheduler.WeeklyFirstDateWeekDay | app/components/DcaModal.jsx:55 | The weekly first date falls on the target weekday. |
| Scheduler.WeeklyFirstDateNumber | app/components/DcaModal.jsx:53-59 | The weekly first date is today plus the least distance to the target weekday, counted in day numbers. |
| Scheduler.WeeklyFirstDateIsNext | app/components/DcaModal.jsx:46-60 | The weekly first date is valid, not before today, on the target weekday, and within six days of today. |
| Scheduler.WeeklyFirstDateIsEarliest | app/components/DcaModal.jsx:46-60 | Every valid date on or after today that falls on the target weekday is on or after the weekly first date. |
| Scheduler.MonthlyFirstDateIsNext | app/components/DcaModal.jsx:63-74 | The monthly first date is valid, not before today and on the target day. It is in today's month when that day has not passed, else in the next month. |
| Scheduler.MonthlyFirstDateIsEarliest | app/components/DcaModal.jsx:69-74 | Every date on or after today that falls on the target day of the month is on or after the monthly first date. |
| Scheduler.DailyIsToday | app/components/DcaModal.jsx:77 | A daily plan starts today, whatever the selectors. |
| Scheduler.BiweeklySameAsWeekly | app/components/DcaModal.jsx:46 | A biweekly plan starts on the same date as a weekly one with the same selector. |
| Scheduler.WeekDayExamples | app/components/DcaModal.jsx:47 | 2024-05-15 is a Wednesday (3) and 2024-05-18 a Saturday (6). |
| Scheduler.WeeklyExamples | app/components/DcaModal.jsx:46-60 | Concrete weekly cases: Wednesday 2024-05-15 with selectors 5, 3 and 7 (out of range, so Monday), and Saturday 2024-05-18 with no selector and with selector 6. |
| Scheduler.MonthlyExamples | app/components/DcaModal.jsx:63-77 | Concrete monthly cases: target day today, later this month and already passed; the 31st with no selector and with selector 31, both giving the 28th of next month; December to January; and a daily plan. |
| PlanForm.SelectorsExclusive | app/components/DcaModal.jsx:157-158 | An emitted plan carries a weekday for weekly and biweekly plans only, and a day of month for monthly plans only. |
| PlanForm.HydratedFirstDate | app/components/DcaModal.jsx:117-122 | Hydration sets the saved first date when there is one. Otherwise it computes one from the saved cycle and selectors, or monthly with no selectors when the cycle is unknown. |
| PlanForm.DcaDraft.constructor | app/components/DcaModal.jsx:81-93 | The first render holds an empty amount, fee "0", monthly cycle and enabled. The weekday is today's on a weekday, else Monday; the day of month is today's up to the 28th, else 1. The first date is the monthly date computed with no selectors. |
| PlanForm.DcaDraft.Recompute | app/components/DcaModal.jsx:125-127 | The recompute effect makes the first date the scheduler's answer for the current cycle and selectors, and changes nothing else. |
| PlanForm.DcaDraft.SetCycle | app/components/DcaModal.jsx:292 | Choosing a cycle sets it. When it differs from the cycle held, the recompute effect reschedules the first date; a click on the current cycle leaves the first date as it was. The other fields are unchanged. |
| PlanForm.DcaDraft.SetWeeklyDay | app/components/DcaModal.jsx:322 | Choosing a weekday sets it. Only a different weekday reschedules the first date; the current one leaves it as it was. The other fields are unchanged. |
| PlanForm.DcaDraft.SetMonthlyDay | app/components/DcaModal.jsx:369 | Choosing a day of month sets it. Only a different day reschedules the first date; the current one leaves it as it was. The other fields are unchanged. |
| PlanForm.DcaDraft.SetAmount | app/components/DcaModal.jsx:260 | Typing an amount replaces its text and nothing else. |
| PlanForm.DcaDraft.SetFeeRate | app/components/DcaModal.jsx:276 | Typing a fee rate replaces its text and nothing else. |
| PlanForm.DcaDraft.ToggleEnabled | app/components/DcaModal.jsx:213 | The switch flips the enabled flag and nothing else. |
| PlanForm.DcaDraft.ApplySaved | app/components/DcaModal.jsx:102-122 | A saved plan's amount, fee, flag and numeric selectors replace the draft's when present. Its cycle replaces the draft's only when it is one of the four names. The first date is set as by HydratedFirstDate. |
| PlanForm.DcaDraft.Hydrate | app/components/DcaModal.jsx:96-127 | Mounting with or without a saved plan leaves its fields adopted as above. Once the recompute effect has run, the first date is always the scheduler's answer for the resulting cycle and selectors. |
| PlanForm.DcaDraft.IsValid | app/components/DcaModal.jsx:163-171 | The confirm button is enabled exactly when every submit check passes and a first date is set. |
| PlanForm.DcaDraft.Submit | app/components/DcaModal.jsx:138-161 | A plan is emitted exactly when the fund code, amount > 0, fee >= 0 and selector-range checks pass, which with a first date is exactly IsValid. The plan carries kind "dca", the fund, the parsed numbers, the cycle, the first date, the flag and only the selector its cycle uses. |
| PlanForm.RejectedDrafts | app/components/DcaModal.jsx:163-171 | An amount of 0, a fee of -1, a weekly plan on Saturday and a monthly plan on the 29th are all rejected. |
| PlanForm.SavedFirstDateExample | app/components/DcaModal.jsx:119-126 | Hydrating a saved monthly plan for the 5th with first date 2024-07-05 on 2024-05-15 shows 2024-06-05: the saved date is overwritten. |

## Left out

- The time zone: `getBrowserTimeZone`, `nowInTz` and the `Asia/Shanghai` fallback (lines 13-26). They read the browser's clock and settings, so "today" is a parameter of every operation.
- The separate clock readings: the first render calls `nowInTz()` three times (lines 86, 90 and 93), and the model takes one `today` for all of them. The readings could differ only across midnight.
- Date text: dates are `(year, month, day)` values. The `YYYY-MM-DD` formatting (lines 26, 60, 74 and 77) and the parsing of a saved `firstDate` string are not modelled, and neither is a malformed saved date. An absent or empty `firstDate` is `None`.
- Number parsing: `parseFloat` is a function parameter (`Parser`), with `None` for NaN. Infinity is not a `real`, so an infinite amount is not modelled.
- Selectors that are non-integer numbers or NaN: `isNumber` accepts them, but the model holds selectors as integers. A NaN weekly selector, or a non-integer one strictly between 1 and 5, passes the range test on line 49, so the scan would never match and would run all 14 steps; a non-integer below 1 or above 5 falls back to Monday like any out-of-range number.
- Saved amount and fee: they are held as the text `String(plan.amount)` yields. The number-to-text conversion is not modelled.
- React scheduling: effects are modelled as running to completion after each state change. `Hydrate` models the mount only. A `plan` prop that changes while the dialog is open is not modelled; there the recompute effect reruns only if cycle or selectors changed, so a saved first date could survive.
- Callbacks: `onConfirm` being absent (the `?.` call) and `onClose` belong to the caller. `Submit` returns the plan it would pass.
- `e.preventDefault()`, the rendering and the `scrollIntoView` effect (lines 129-136). These are presentation only.
- The `!cycle` test of `handleSubmit` and `isValid`: the model's cycle is always one of the four, so that test never fails.
