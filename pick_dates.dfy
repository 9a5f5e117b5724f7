/** The period step of the wizard
    (apps/console/src/app/workflows/create-subscription/steps/pick-dates.tsx): when Continue is
    enabled, when the end-date error and the backdating note show, and the duration text.
    `parse` is `new Date(s).getTime()`, `None` for an invalid date (NaN, which makes every
    comparison false). */
module PickDates {
  import opened Wrappers
  import opened Text
  import opened CreateSubscription

  const DayMs := 86_400_000

  // ---------------------------------------------------------------------------------------
  // Validity and messages

  /** `isValid`: both dates entered and the end after the start. */
  predicate DatesValid(startDate: string, endDate: string, parse: string -> Option<int>) {
    && startDate != "" && endDate != ""
    && parse(startDate).Some? && parse(endDate).Some?
    && parse(endDate).value > parse(startDate).value
  }

  /** The end-date error: both dates entered and the end not after the start. */
  predicate EndDateError(startDate: string, endDate: string, parse: string -> Option<int>) {
    && startDate != "" && endDate != ""
    && parse(startDate).Some? && parse(endDate).Some?
    && parse(endDate).value <= parse(startDate).value
  }

  /** The backdating note: a start date entered and before now. */
  predicate PastStartNote(startDate: string, nowMs: int, parse: string -> Option<int>) {
    startDate != "" && parse(startDate).Some? && parse(startDate).value < nowMs
  }

  /** Continue is disabled exactly when the step is not valid. */
  predicate ContinueDisabled(startDate: string, endDate: string, parse: string -> Option<int>) {
    !DatesValid(startDate, endDate, parse)
  }

  /** With both dates entered and both readable, the error shows exactly when the step is invalid. */
  lemma ErrorIsComplementOfValidity(startDate: string, endDate: string, parse: string -> Option<int>)
    requires startDate != "" && endDate != ""
    requires parse(startDate).Some? && parse(endDate).Some?
    ensures EndDateError(startDate, endDate, parse) <==> !DatesValid(startDate, endDate, parse)
    ensures EndDateError(startDate, endDate, parse) <==> ContinueDisabled(startDate, endDate, parse)
  {
  }

  /** An entered date that does not parse makes the step invalid without showing the error. */
  lemma UnreadableDateShowsNoError(startDate: string, endDate: string, parse: string -> Option<int>)
    requires parse(startDate).None? || parse(endDate).None?
    ensures !DatesValid(startDate, endDate, parse) && !EndDateError(startDate, endDate, parse)
  {
  }

  /** The server's period check is stricter than the step's: when the server accepts the period
      of entered dates, the step accepted it too. */
  lemma ServerPeriodImpliesStep(input: Input, nowMs: int, parse: string -> Option<int>)
    requires input.startDate != "" && input.endDate != ""
    requires Rules(input, nowMs, parse)[0].holds && Rules(input, nowMs, parse)[1].holds
    ensures DatesValid(input.startDate, input.endDate, parse)
  {
    var s, e := parse(input.startDate).value, parse(input.endDate).value;
    assert FloorSeconds(e) > FloorSeconds(s);
  }

  /** The converse fails: an end less than a second after the start passes the step and is
      rejected by the server, which compares whole seconds. */
  lemma StepValidServerRejects()
    ensures var parse := (s: string) => if s == "a" then Some(0) else if s == "b" then Some(500) else None;
            var input := Input("c", "cus", "n", [LineItem("p", "n", 100, "usd", "month", 1)],
                               "a", "b", Now, None, "k");
            && DatesValid("a", "b", parse)
            && Validate(input, 0, parse) == Invalid(EndNotAfterStartMsg)
  {
  }

  // ---------------------------------------------------------------------------------------
  // The duration text

  /** `Math.round(days / 30.44)`, computed exactly: `floor((100 * days + 1522) / 3044)`. The
      quotient is never exactly halfway, so no rounding tie arises. */
  function RoundedMonths(days: int): (m: int)
    ensures -1522 <= 100 * days - 3044 * m < 1522
  {
    (100 * days + 1522) / 3044
  }

  /** The rounded month count is the integer nearest to `days / 30.44`, strictly on both sides. */
  lemma RoundedMonthsIsNearest(days: int)
    ensures var m := RoundedMonths(days);
            -1522 < 100 * days - 3044 * m < 1522
  {
    var m := RoundedMonths(days);
    // 100 * days - 3044 * m + 1522 is twice an odd number, so it is not zero.
    var half := 50 * days - 1522 * m + 761;
    assert half == 2 * (25 * days - 761 * m + 380) + 1;
    assert half % 2 == 1;
    assert 100 * days - 3044 * m + 1522 == 2 * half;
  }

  /** Any integer as near to `days / 30.44` as that is the rounded month count. */
  lemma NearestMonthIsUnique(days: int, k: int)
    requires -1522 < 100 * days - 3044 * k < 1522
    ensures k == RoundedMonths(days)
  {
    RoundedMonthsIsNearest(days);
  }

  /** The shape of a duration: days, approximate months, whole years, or years and months. */
  datatype Duration =
    | InDays(days: int)
    | InMonths(months: int)
    | YearsOnly(years: int)
    | YearsAndMonths(years: int, months: int)

  /** The duration of a span, with whole years `months / 12`: the years and remaining months
      always add up to the rounded month count. */
  function DurationOf(diffMs: int): (d: Duration)
    ensures var days := diffMs / DayMs;
            && (d.InDays? <==> days < 31)
            && (d.InDays? ==> d.days == days)
            && (d.InMonths? <==> days >= 31 && RoundedMonths(days) < 12)
            && (d.InMonths? ==> d.months == RoundedMonths(days) && d.months >= 1)
            && (d.YearsOnly? ==> 12 * d.years == RoundedMonths(days) && d.years >= 1)
            && (d.YearsAndMonths? ==> 12 * d.years + d.months == RoundedMonths(days)
                                      && d.years >= 1 && 0 < d.months < 12)
  {
    var days := diffMs / DayMs;
    if days < 31 then InDays(days)
    else
      var months := RoundedMonths(days);
      if months < 12 then InMonths(months)
      else
        var years := months / 12;
        var remaining := months % 12;
        if remaining == 0 then YearsOnly(years) else YearsAndMonths(years, remaining)
  }

  /** The duration as the source computes it, with whole years `Math.round(months / 12)`,
      which is `floor((months + 6) / 12)`. */
  function DurationOfAsWritten(diffMs: int): Duration {
    var days := diffMs / DayMs;
    if days < 31 then InDays(days)
    else
      var months := RoundedMonths(days);
      if months < 12 then InMonths(months)
      else
        var years := (months + 6) / 12;
        var remaining := months % 12;
        if remaining == 0 then YearsOnly(years) else YearsAndMonths(years, remaining)
  }

  /** As written, a remainder of six months or more counts a year too many. */
  lemma AsWrittenOverstatesYears(diffMs: int)
    requires diffMs / DayMs >= 31
    requires RoundedMonths(diffMs / DayMs) >= 12 && RoundedMonths(diffMs / DayMs) % 12 >= 6
    ensures var d := DurationOfAsWritten(diffMs);
            d.YearsAndMonths? && 12 * d.years + d.months == RoundedMonths(diffMs / DayMs) + 12
  {
  }

  /** `n` followed by a unit, with "s" unless `n` is 1. */
  function Counted(n: int, unit: string): string {
    IntToString(n) + unit + (if n != 1 then "s" else "")
  }

  function RenderDuration(d: Duration): string {
    match d
    case InDays(n) => Counted(n, " day")
    case InMonths(n) => "~" + Counted(n, " month")
    case YearsOnly(y) => Counted(y, " year")
    case YearsAndMonths(y, m) => IntToString(y) + "y " + IntToString(m) + "m"
  }

  /** `formatDuration(start, end)` with whole years corrected to `months / 12`. */
  function FormatDuration(startMs: int, endMs: int): string {
    RenderDuration(DurationOf(endMs - startMs))
  }

  /** `formatDuration(start, end)` as written. */
  function FormatDurationAsWritten(startMs: int, endMs: int): string {
    RenderDuration(DurationOfAsWritten(endMs - startMs))
  }

  /** 548 days round to 18 months; as written that renders "2y 6m", corrected "1y 6m". */
  lemma EighteenMonthsRendering()
    ensures RoundedMonths(548) == 18
    ensures FormatDurationAsWritten(0, 548 * DayMs) == "2y 6m"
    ensures FormatDuration(0, 548 * DayMs) == "1y 6m"
  {
    assert (548 * DayMs) / DayMs == 548;
    assert NatToString(2) == "2" && NatToString(6) == "6" && NatToString(1) == "1";
  }

  /** The spans whose duration text the source gets wrong: a year or more, with six or more
      months left over. */
  predicate Overstated(diffMs: int) {
    var days := diffMs / DayMs;
    days >= 31 && RoundedMonths(days) >= 12 && RoundedMonths(days) % 12 >= 6
  }

  /** `Math.round(months / 12)` is the whole years `months / 12`, plus one when six or more months
      are left over. */
  lemma RoundedYears(months: int)
    ensures months % 12 < 6 ==> (months + 6) / 12 == months / 12
    ensures months % 12 >= 6 ==> (months + 6) / 12 == months / 12 + 1
  {
    var q, r := months / 12, months % 12;
    assert months + 6 == 12 * q + (r + 6);
    if r < 6 {
      assert (12 * q + (r + 6)) / 12 == q;
    } else {
      assert months + 6 == 12 * (q + 1) + (r - 6);
    }
  }

  /** The source and the corrected duration agree on every span the source does not overstate. */
  lemma AsWrittenAgrees(diffMs: int)
    requires !Overstated(diffMs)
    ensures DurationOfAsWritten(diffMs) == DurationOf(diffMs)
  {
    RoundedYears(RoundedMonths(diffMs / DayMs));
  }

  /** On a span the source overstates, the two texts differ. */
  lemma AsWrittenDiffers(diffMs: int)
    requires Overstated(diffMs)
    ensures RenderDuration(DurationOfAsWritten(diffMs)) != RenderDuration(DurationOf(diffMs))
  {
    var months := RoundedMonths(diffMs / DayMs);
    RoundedYears(months);
    var y1, y2, r := (months + 6) / 12, months / 12, months % 12;
    assert DurationOfAsWritten(diffMs) == YearsAndMonths(y1, r);
    assert DurationOf(diffMs) == YearsAndMonths(y2, r);
    var a, b := NatToString(y1), NatToString(y2);
    var tail := "y " + IntToString(r) + "m";
    assert RenderDuration(YearsAndMonths(y1, r)) == a + tail;
    assert RenderDuration(YearsAndMonths(y2, r)) == b + tail;
    if a + tail == b + tail {
      assert |a| == |b|;
      assert a == (a + tail)[..|a|] == (b + tail)[..|b|] == b;
      NatToStringInjective(y1, y2);
    }
  }

  /** The duration line of the step, which renders `formatDuration` as written: it is shown
      exactly while the step is valid, and it agrees with the corrected duration text exactly
      when the span is not one the source overstates. */
  function ShownDuration(startDate: string, endDate: string, parse: string -> Option<int>): (shown: Option<string>)
    ensures shown.Some? <==> DatesValid(startDate, endDate, parse)
    ensures shown.Some? ==> shown.value == FormatDurationAsWritten(parse(startDate).value, parse(endDate).value)
    ensures shown.Some? ==>
              (shown.value == FormatDuration(parse(startDate).value, parse(endDate).value)
               <==> !Overstated(parse(endDate).value - parse(startDate).value))
  {
    if DatesValid(startDate, endDate, parse) then
      var startMs, endMs := parse(startDate).value, parse(endDate).value;
      if Overstated(endMs - startMs) then AsWrittenDiffers(endMs - startMs); Some(FormatDurationAsWritten(startMs, endMs))
      else AsWrittenAgrees(endMs - startMs); Some(FormatDurationAsWritten(startMs, endMs))
    else None
  }

  /** A shown duration is never negative: its day count is at least 0. */
  lemma ShownDurationIsForward(startDate: string, endDate: string, parse: string -> Option<int>)
    requires DatesValid(startDate, endDate, parse)
    ensures var d := DurationOfAsWritten(parse(endDate).value - parse(startDate).value);
            d.InDays? ==> d.days >= 0
  {
  }
}
