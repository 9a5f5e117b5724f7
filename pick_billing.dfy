/** The billing step of the wizard
    (apps/console/src/app/workflows/create-subscription/steps/pick-billing.tsx): when Continue is
    enabled and when the "must be in the future" warning shows, and how that check relates to the
    server's billing-date rules. `parse` is `new Date(s).getTime()`, `None` for an invalid date. */
module PickBilling {
  import opened Wrappers
  import opened CreateSubscription

  /** `isValid`: "now" always; "future" with an entered date strictly after now. */
  predicate BillingValid(mode: BillingMode, billingDate: string, nowMs: int, parse: string -> Option<int>) {
    mode == Now || (billingDate != "" && parse(billingDate).Some? && parse(billingDate).value > nowMs)
  }

  /** The warning, shown only in "future" mode: an entered date that is not after now. */
  predicate FutureWarning(mode: BillingMode, billingDate: string, nowMs: int, parse: string -> Option<int>) {
    mode == Future && billingDate != "" && parse(billingDate).Some? && parse(billingDate).value <= nowMs
  }

  /** "now" mode is valid whatever the billing date, and shows no warning. */
  lemma NowModeAlwaysValid(billingDate: string, nowMs: int, parse: string -> Option<int>)
    ensures BillingValid(Now, billingDate, nowMs, parse)
    ensures !FutureWarning(Now, billingDate, nowMs, parse)
  {
  }

  /** In "future" mode with a readable entered date, the warning shows exactly when the step is invalid. */
  lemma WarningIsComplementOfValidity(billingDate: string, nowMs: int, parse: string -> Option<int>)
    requires billingDate != "" && parse(billingDate).Some?
    ensures FutureWarning(Future, billingDate, nowMs, parse) <==> !BillingValid(Future, billingDate, nowMs, parse)
  {
  }

  /** An empty or unreadable date makes "future" mode invalid without a warning. */
  lemma MissingDateShowsNoWarning(billingDate: string, nowMs: int, parse: string -> Option<int>)
    requires billingDate == "" || parse(billingDate).None?
    ensures !BillingValid(Future, billingDate, nowMs, parse)
    ensures !FutureWarning(Future, billingDate, nowMs, parse)
  {
  }

  /** Whole seconds preserve order: a later instant is never in an earlier second. */
  lemma FloorSecondsMonotone(a: int, b: int)
    requires a <= b
    ensures FloorSeconds(a) <= FloorSeconds(b)
  {
  }

  /** At the same clock reading, a billing date the step accepts passes the server's "not in the
      past" rule: the server's rule list, at its billing-date rules, holds for it. */
  lemma StepValidPassesPastRule(input: Input, nowMs: int, parse: string -> Option<int>)
    requires input.billingMode == Future && input.billingDate.Some?
    requires BillingValid(Future, input.billingDate.value, nowMs, parse)
    ensures Rules(input, nowMs, parse)[3].holds
    ensures Rules(input, nowMs, parse)[4].holds
    ensures Rules(input, nowMs, parse)[5].holds
  {
    FloorSecondsMonotone(nowMs, parse(input.billingDate.value).value);
  }

  /** The step never compares with the end date: a date it accepts can still be rejected by the
      server as after the end of the period. */
  lemma StepValidServerRejectsAfterEnd()
    ensures var parse := (s: string) =>
              if s == "start" then Some(0) else if s == "end" then Some(10_000_000)
              else if s == "bill" then Some(20_000_000) else None;
            var input := Input("c", "cus", "n", [LineItem("p", "n", 100, "usd", "month", 1)],
                               "start", "end", Future, Some("bill"), "k");
            && BillingValid(Future, "bill", 1_000, parse)
            && Validate(input, 1_000, parse) == Invalid(BillingAfterEndMsg)
  {
  }
}
