/** The draft of a dollar-cost-averaging plan that the DcaModal component
    keeps while the user edits it: its initial values, hydration from a saved
    plan, the rule that every change of cycle or day selector recomputes the
    first execution date, the validity check behind the save button, and the
    plan record handed to onConfirm. React's effects become explicit
    synchronous methods; "today" is a parameter of each of them. */
module PlanForm {
  import opened Wrappers
  import opened Calendar
  import opened Scheduler

  /** The fund the plan buys (the fund prop). */
  datatype Fund = Fund(code: string, name: string)

  /** The plan record passed to onConfirm; kind is the constant type tag "dca". */
  datatype Plan = Plan(
    kind: string,
    fundCode: string,
    fundName: string,
    amount: real,
    feeRate: real,
    cycle: Cycle,
    firstDate: Option<Date>,
    weeklyDay: Option<int>,
    monthlyDay: Option<int>,
    enabled: bool)

  /** A previously saved plan (the plan prop) as hydration reads it. Each
      Option is None when the field is absent: amount and feeRate when null or
      undefined (a present one is held as the text String() makes of it),
      enabled when it is not a boolean, the selectors when they are not
      numbers, firstDate when it is empty. cycle is the raw stored text. */
  datatype SavedPlan = SavedPlan(
    amount: Option<string>,
    feeRate: Option<string>,
    enabled: Option<bool>,
    cycle: string,
    weeklyDay: Option<int>,
    monthlyDay: Option<int>,
    firstDate: Option<Date>)

  /** parseFloat on the text of a numeric field; None stands for NaN. */
  type Parser = string -> Option<real>

  /** `fund?.code` is truthy. */
  predicate HasFundCode(fund: Option<Fund>) {
    fund.Some? && fund.value.code != ""
  }

  /** A plan's day selectors agree with its cycle: the weekday for weekly and
      biweekly plans, the day of the month for monthly ones, neither for daily. */
  predicate SelectorsMatchCycle(p: Plan) {
    (p.weeklyDay.Some? <==> IsWeekly(p.cycle)) && (p.monthlyDay.Some? <==> p.cycle == Monthly)
  }

  /** Exactly one selector is set, except for daily plans, which have none. */
  lemma SelectorsExclusive(p: Plan)
    requires SelectorsMatchCycle(p)
    ensures p.cycle == Daily ==> p.weeklyDay.None? && p.monthlyDay.None?
    ensures p.cycle != Daily ==> (p.weeklyDay.Some? != p.monthlyDay.Some?)
  {
  }

  /** The first date the hydration effect sets: the saved one when present,
      else one computed from the saved cycle and the saved selectors, or for
      the monthly cycle without selectors when the saved cycle is unknown. */
  method HydratedFirstDate(p: SavedPlan, today: Date) returns (d: Option<Date>)
    requires ValidDate(today)
    ensures d.Some?
    ensures p.firstDate.Some? ==> d == p.firstDate
    ensures p.firstDate.None? && CycleFromName(p.cycle).Some? ==>
      d == Some(FirstDate(CycleFromName(p.cycle).value, p.weeklyDay, p.monthlyDay, today))
    ensures p.firstDate.None? && CycleFromName(p.cycle).None? ==>
      d == Some(FirstDate(Monthly, None, None, today))
  {
    var saved := CycleFromName(p.cycle);
    if saved.Some? {
      if p.firstDate.Some? {
        d := p.firstDate;
      } else {
        var computed := ComputeFirstDate(saved.value, p.weeklyDay, p.monthlyDay, today);
        d := Some(computed);
      }
    } else {
      if p.firstDate.Some? {
        d := p.firstDate;
      } else {
        var computed := ComputeFirstDate(Monthly, None, None, today);
        d := Some(computed);
      }
    }
  }

  class DcaDraft {
    var amount: string
    var feeRate: string
    var cycle: Cycle
    var enabled: bool
    var weeklyDay: int
    var monthlyDay: int
    var firstDate: Option<Date>

    /** firstDate is the scheduler's answer for the current cycle and selectors. */
    ghost predicate Scheduled(today: Date)
      requires ValidDate(today)
      reads this
    {
      firstDate == Some(FirstDate(cycle, Some(weeklyDay), Some(monthlyDay), today))
    }

    /** The state of the first render: the useState initial values. The
        first date is computed from no selectors at all, so on the 29th to the
        31st it aims at the 28th while monthlyDay is 1, until Hydrate runs. */
    constructor (today: Date)
      requires ValidDate(today)
      ensures amount == "" && feeRate == "0" && cycle == Monthly && enabled
      ensures weeklyDay == (if 1 <= WeekDay(today) <= 5 then WeekDay(today) else 1)
      ensures monthlyDay == (if today.day <= 28 then today.day else 1)
      ensures firstDate == Some(FirstDate(Monthly, None, None, today))
    {
      var d := WeekDay(today);
      var first := ComputeFirstDate(Monthly, None, None, today);
      amount := "";
      feeRate := "0";
      cycle := Monthly;
      enabled := true;
      weeklyDay := if d >= 1 && d <= 5 then d else 1;
      monthlyDay := if today.day >= 1 && today.day <= 28 then today.day else 1;
      firstDate := Some(first);
    }

    /** The recompute effect: firstDate follows cycle, weeklyDay and monthlyDay. */
    method Recompute(today: Date)
      requires ValidDate(today)
      modifies this
      ensures Scheduled(today)
      ensures amount == old(amount) && feeRate == old(feeRate) && enabled == old(enabled)
      ensures cycle == old(cycle) && weeklyDay == old(weeklyDay) && monthlyDay == old(monthlyDay)
    {
      var d := ComputeFirstDate(cycle, Some(weeklyDay), Some(monthlyDay), today);
      firstDate := Some(d);
    }

    /** A click on a cycle button. React skips an update to the value already
        held, so the recompute effect runs only when the cycle changes. */
    method SetCycle(c: Cycle, today: Date)
      requires ValidDate(today)
      modifies this
      ensures cycle == c
      ensures c != old(cycle) ==> Scheduled(today)
      ensures c == old(cycle) ==> firstDate == old(firstDate)
      ensures amount == old(amount) && feeRate == old(feeRate) && enabled == old(enabled)
      ensures weeklyDay == old(weeklyDay) && monthlyDay == old(monthlyDay)
    {
      if c != cycle {
        cycle := c;
        Recompute(today);
      }
    }

    /** A click on a weekday button; the recompute effect runs only when the
        weekday changes. */
    method SetWeeklyDay(day: int, today: Date)
      requires ValidDate(today)
      modifies this
      ensures weeklyDay == day
      ensures day != old(weeklyDay) ==> Scheduled(today)
      ensures day == old(weeklyDay) ==> firstDate == old(firstDate)
      ensures amount == old(amount) && feeRate == old(feeRate) && enabled == old(enabled)
      ensures cycle == old(cycle) && monthlyDay == old(monthlyDay)
    {
      if day != weeklyDay {
        weeklyDay := day;
        Recompute(today);
      }
    }

    /** A click on a day-of-month button; the recompute effect runs only when
        the day changes. */
    method SetMonthlyDay(day: int, today: Date)
      requires ValidDate(today)
      modifies this
      ensures monthlyDay == day
      ensures day != old(monthlyDay) ==> Scheduled(today)
      ensures day == old(monthlyDay) ==> firstDate == old(firstDate)
      ensures amount == old(amount) && feeRate == old(feeRate) && enabled == old(enabled)
      ensures cycle == old(cycle) && weeklyDay == old(weeklyDay)
    {
      if day != monthlyDay {
        monthlyDay := day;
        Recompute(today);
      }
    }

    /** Typing in the amount field; the first date is not touched. */
    method SetAmount(text: string)
      modifies this`amount
      ensures amount == text
    {
      amount := text;
    }

    /** Typing in the fee-rate field; the first date is not touched. */
    method SetFeeRate(text: string)
      modifies this`feeRate
      ensures feeRate == text
    {
      feeRate := text;
    }

    /** The enable switch. */
    method ToggleEnabled()
      modifies this`enabled
      ensures enabled == !old(enabled)
    {
      enabled := !enabled;
    }

    /** The hydration effect for a saved plan: each field the plan supplies
        replaces the draft's, the selectors without a range check; the cycle
        only when it names one of the four cycles. The first date becomes the
        saved one, else one computed from the saved cycle and the saved (not
        the merged) selectors, or from no selectors when the cycle is unknown. */
    method ApplySaved(p: SavedPlan, today: Date)
      requires ValidDate(today)
      modifies this
      ensures amount == (if p.amount.Some? then p.amount.value else old(amount))
      ensures feeRate == (if p.feeRate.Some? then p.feeRate.value else old(feeRate))
      ensures enabled == (if p.enabled.Some? then p.enabled.value else old(enabled))
      ensures weeklyDay == (if p.weeklyDay.Some? then p.weeklyDay.value else old(weeklyDay))
      ensures monthlyDay == (if p.monthlyDay.Some? then p.monthlyDay.value else old(monthlyDay))
      ensures cycle == (if CycleFromName(p.cycle).Some? then CycleFromName(p.cycle).value else old(cycle))
      ensures firstDate.Some?
      ensures p.firstDate.Some? ==> firstDate == p.firstDate
      ensures p.firstDate.None? && CycleFromName(p.cycle).Some? ==>
        firstDate == Some(FirstDate(CycleFromName(p.cycle).value, p.weeklyDay, p.monthlyDay, today))
      ensures p.firstDate.None? && CycleFromName(p.cycle).None? ==>
        firstDate == Some(FirstDate(Monthly, None, None, today))
    {
      // Each setter runs only when the saved plan supplies the field.
      amount := if p.amount.Some? then p.amount.value else amount;
      feeRate := if p.feeRate.Some? then p.feeRate.value else feeRate;
      enabled := if p.enabled.Some? then p.enabled.value else enabled;
      weeklyDay := if p.weeklyDay.Some? then p.weeklyDay.value else weeklyDay;
      monthlyDay := if p.monthlyDay.Some? then p.monthlyDay.value else monthlyDay;
      var saved := CycleFromName(p.cycle);
      if saved.Some? {
        cycle := saved.value;
      }
      firstDate := HydratedFirstDate(p, today);
    }

    /** The effects of the first mount, in their order: the hydration effect
        (or, without a saved plan, a first computation for the monthly cycle),
        then the recompute effect, which overwrites whatever first date
        hydration chose, the saved one included. */
    method Hydrate(plan: Option<SavedPlan>, today: Date)
      requires ValidDate(today)
      modifies this
      ensures plan.None? ==>
        amount == old(amount) && feeRate == old(feeRate) && enabled == old(enabled) &&
        cycle == old(cycle) && weeklyDay == old(weeklyDay) && monthlyDay == old(monthlyDay)
      ensures plan.Some? ==>
        var p := plan.value;
        amount == (if p.amount.Some? then p.amount.value else old(amount)) &&
        feeRate == (if p.feeRate.Some? then p.feeRate.value else old(feeRate)) &&
        enabled == (if p.enabled.Some? then p.enabled.value else old(enabled)) &&
        weeklyDay == (if p.weeklyDay.Some? then p.weeklyDay.value else old(weeklyDay)) &&
        monthlyDay == (if p.monthlyDay.Some? then p.monthlyDay.value else old(monthlyDay)) &&
        cycle == (if CycleFromName(p.cycle).Some? then CycleFromName(p.cycle).value else old(cycle))
      ensures Scheduled(today)
    {
      if plan.None? {
        var d := ComputeFirstDate(Monthly, Some(weeklyDay), Some(monthlyDay), today);
        firstDate := Some(d);
      } else {
        ApplySaved(plan.value, today);
      }
      Recompute(today);
    }

    /** The checks that handleSubmit makes, as one condition. The `!cycle`
        check is absent: a Cycle is never empty. */
    predicate FieldsValid(fund: Option<Fund>, parse: Parser)
      reads this
    {
      HasFundCode(fund) &&
      parse(amount).Some? && parse(amount).value > 0.0 &&
      parse(feeRate).Some? && parse(feeRate).value >= 0.0 &&
      (IsWeekly(cycle) ==> 1 <= weeklyDay <= 5) &&
      (cycle == Monthly ==> 1 <= monthlyDay <= 28)
    }

    /** isValid, which enables the save button: the submit checks, and a
        first date that is present. */
    function IsValid(fund: Option<Fund>, parse: Parser): (ok: bool)
      reads this
      ensures ok <==> FieldsValid(fund, parse) && firstDate.Some?
    {
      var amt := parse(amount);
      var rate := parse(feeRate);
      if !HasFundCode(fund) || firstDate.None? then false
      else if !(amt.Some? && amt.value > 0.0) || rate.None? || rate.value < 0.0 then false
      else if IsWeekly(cycle) && (weeklyDay < 1 || weeklyDay > 5) then false
      else if cycle == Monthly && (monthlyDay < 1 || monthlyDay > 28) then false
      else true
    }

    /** handleSubmit: the plan handed to onConfirm, or None when a check
        fails. It does not look at the first date, so wherever the first
        date is present it emits exactly when isValid holds. */
    method Submit(fund: Option<Fund>, parse: Parser) returns (emitted: Option<Plan>)
      ensures emitted.Some? <==> FieldsValid(fund, parse)
      ensures firstDate.Some? ==> (emitted.Some? <==> IsValid(fund, parse))
      ensures emitted.Some? ==>
        var p := emitted.value;
        p.kind == "dca" && p.fundCode == fund.value.code && p.fundName == fund.value.name &&
        parse(amount) == Some(p.amount) && p.amount > 0.0 &&
        parse(feeRate) == Some(p.feeRate) && p.feeRate >= 0.0 &&
        p.cycle == cycle && p.firstDate == firstDate && p.enabled == enabled &&
        SelectorsMatchCycle(p) &&
        (p.weeklyDay.Some? ==> p.weeklyDay.value == weeklyDay && 1 <= weeklyDay <= 5) &&
        (p.monthlyDay.Some? ==> p.monthlyDay.value == monthlyDay && 1 <= monthlyDay <= 28)
    {
      emitted := None;
      var amt := parse(amount);
      var rate := parse(feeRate);
      if !HasFundCode(fund) {
        return;
      }
      if amt.None? || amt.value == 0.0 || amt.value <= 0.0 {
        return;
      }
      if rate.None? || rate.value < 0.0 {
        return;
      }
      if IsWeekly(cycle) && (weeklyDay < 1 || weeklyDay > 5) {
        return;
      }
      if cycle == Monthly && (monthlyDay < 1 || monthlyDay > 28) {
        return;
      }
      emitted := Some(Plan(
        "dca", fund.value.code, fund.value.name, amt.value, rate.value, cycle, firstDate,
        if IsWeekly(cycle) then Some(weeklyDay) else None,
        if cycle == Monthly then Some(monthlyDay) else None,
        enabled));
    }
  }

  /** Drafts the save button rejects: a zero amount, a negative fee rate,
      weekday 6 for a weekly plan, day 29 for a monthly one. */
  lemma RejectedDrafts(f: DcaDraft, fund: Option<Fund>, parse: Parser)
    ensures parse(f.amount) == Some(0.0) ==> !f.IsValid(fund, parse)
    ensures parse(f.feeRate) == Some(-1.0) ==> !f.IsValid(fund, parse)
    ensures f.cycle == Weekly && f.weeklyDay == 6 ==> !f.IsValid(fund, parse)
    ensures f.cycle == Monthly && f.monthlyDay == 29 ==> !f.IsValid(fund, parse)
  {
  }

  /** Editing a saved monthly plan (day 5, saved first date 2024-07-05) on
      2024-05-15: the saved first date does not survive the mount, the
      recomputed 2024-06-05 replaces it. */
  method SavedFirstDateExample() returns (shown: Option<Date>)
    ensures shown == Some(Date(2024, 6, 5))
  {
    var today := Date(2024, 5, 15);
    var draft := new DcaDraft(today);
    draft.Hydrate(Some(SavedPlan(None, None, None, "monthly", None, Some(5), Some(Date(2024, 7, 5)))), today);
    shown := draft.firstDate;
  }
}
