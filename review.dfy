/** The review step of the wizard
    (apps/console/src/app/workflows/create-subscription/steps/review.tsx): the total of the
    selected prices, the action input built from the wizard state, and the panel's executing flag
    and error message around the call. */
module ReviewStep {
  import opened Wrappers
  import opened CreateSubscription
  import opened CreateSubscriptionWizard
  import StripePrices
  import PickPrices

  // ---------------------------------------------------------------------------------------
  // The total

  /** `lineItems.reduce((acc, li) => acc + li.unitAmount * li.quantity, 0)`, in integer cents. */
  function TotalMonthly(items: seq<LineItem>): int
    decreases |items|
  {
    if items == [] then 0
    else TotalMonthly(items[..|items| - 1]) + items[|items| - 1].unitAmount * items[|items| - 1].quantity
  }

  /** The same sum taken from the front, as a reference definition. */
  function SumOfAmounts(items: seq<LineItem>): int
    decreases |items|
  {
    if items == [] then 0 else items[0].unitAmount * items[0].quantity + SumOfAmounts(items[1..])
  }

  /** The sum from the front over a concatenation is the sum of the parts. */
  lemma {:induction false} SumOfAmountsAppend(a: seq<LineItem>, b: seq<LineItem>)
    ensures SumOfAmounts(a + b) == SumOfAmounts(a) + SumOfAmounts(b)
    decreases |a|
  {
    if a == [] {
      assert a + b == b;
    } else {
      assert (a + b)[0] == a[0];
      assert (a + b)[1..] == a[1..] + b;
      SumOfAmountsAppend(a[1..], b);
    }
  }

  /** The reduction is the plain sum of unit amount times quantity, whatever the order of summing. */
  lemma {:induction false} TotalIsSum(items: seq<LineItem>)
    ensures TotalMonthly(items) == SumOfAmounts(items)
    decreases |items|
  {
    if items != [] {
      var init, last := items[..|items| - 1], items[|items| - 1];
      TotalIsSum(init);
      assert items == init + [last];
      SumOfAmountsAppend(init, [last]);
    }
  }

  /** The total of a concatenation is the sum of the totals. */
  lemma TotalAppend(a: seq<LineItem>, b: seq<LineItem>)
    ensures TotalMonthly(a + b) == TotalMonthly(a) + TotalMonthly(b)
  {
    TotalIsSum(a + b);
    TotalIsSum(a);
    TotalIsSum(b);
    SumOfAmountsAppend(a, b);
  }

  /** An empty list totals 0, and non-negative amounts and quantities give a non-negative total. */
  lemma {:induction false} TotalNonNegative(items: seq<LineItem>)
    requires forall i :: 0 <= i < |items| ==> items[i].unitAmount >= 0 && items[i].quantity >= 0
    ensures items == [] ==> TotalMonthly(items) == 0
    ensures TotalMonthly(items) >= 0
    decreases |items|
  {
    if items != [] {
      var init := items[..|items| - 1];
      assert forall i :: 0 <= i < |init| ==> init[i] == items[i];
      TotalNonNegative(init);
    }
  }

  /** Picking a new price adds its unit amount, once, to the total. */
  lemma TotalAfterAddPrice(items: seq<LineItem>, price: StripePrices.StripePrice)
    ensures TotalMonthly(PickPrices.AddPrice(items, price)) ==
            TotalMonthly(items) + (if price.id in PickPrices.SelectedIds(items) then 0 else price.unitAmount)
  {
    if price.id !in PickPrices.SelectedIds(items) {
      var r := PickPrices.AddPrice(items, price);
      assert r[..|r| - 1] == items;
    }
  }

  // ---------------------------------------------------------------------------------------
  // The input

  /** The input `handleExecute` sends, or `None` when it returns early because the customer is
      missing or has no (or an empty) provider customer id. */
  function BuildInput(st: State): (r: Option<Input>)
    ensures r.None? <==> st.customer.None? || !Truthy(st.customer.value.stripeCustomerId)
    ensures r.Some? ==>
              var c := st.customer.value;
              && r.value.customerId == c.id
              && Some(r.value.stripeCustomerId) == c.stripeCustomerId
              && r.value.customerName == c.sfAccountName.GetOr("Unknown")
              && r.value.lineItems == st.lineItems
              && r.value.startDate == st.startDate && r.value.endDate == st.endDate
              && r.value.billingMode == st.billingMode
              && r.value.idempotencyKey == st.idempotencyKey
              && (r.value.billingDate.Some? <==> st.billingMode == Future)
              && (r.value.billingDate.Some? ==> r.value.billingDate.value == st.billingDate)
  {
    match st.customer
    case None => None
    case Some(c) =>
      if !Truthy(c.stripeCustomerId) then None
      else Some(Input(c.id, c.stripeCustomerId.value, c.sfAccountName.GetOr("Unknown"), st.lineItems,
                      st.startDate, st.endDate, st.billingMode,
                      if st.billingMode == Future then Some(st.billingDate) else None,
                      st.idempotencyKey))
  }

  /** A future-mode submission with an empty billing date reaches the server as a missing one:
      once the period and the items pass, it is rejected for the missing billing date. */
  lemma EmptyFutureDateIsRejected(st: State, nowMs: int, parse: string -> Option<int>)
    requires BuildInput(st).Some?
    requires st.billingMode == Future && st.billingDate == ""
    requires Rules(BuildInput(st).value, nowMs, parse)[0].holds
    requires Rules(BuildInput(st).value, nowMs, parse)[1].holds
    requires st.lineItems != []
    ensures Validate(BuildInput(st).value, nowMs, parse) == Invalid(BillingDateRequiredMsg)
  {
  }

  /** The wizard's billing date is never sent in "now" mode, so it cannot affect the server. */
  lemma NowModeDateNeverSent(st: State, other: string)
    requires BuildInput(st).Some? && st.billingMode == Now
    ensures BuildInput(st.(billingDate := other)) == BuildInput(st)
    ensures BuildInput(st).value.billingDate.None?
  {
  }

  // ---------------------------------------------------------------------------------------
  // The panel

  /** How the awaited action call ended: a returned result, or a thrown value. */
  datatype CallOutcome = Returned(result: Result) | Raised(thrown: Thrown)

  const UnknownErrorMsg := "Unknown error"
  const UnexpectedErrorMsg := "An unexpected error occurred"

  /** The message shown after a thrown value: an `Error`'s message, or the generic text. */
  function ThrownMessage(t: Thrown): string {
    match t
    case ErrorObject(m) => m
    case OtherThrown => UnexpectedErrorMsg
  }

  /** Back and Execute are disabled while the call is in flight. */
  predicate BackDisabled(isExecuting: bool) {
    isExecuting
  }

  predicate ExecuteDisabled(isExecuting: bool) {
    isExecuting
  }

  class ReviewPanel {
    var isExecuting: bool
    var error: Option<string>
    /** The results handed to the wizard through `onResult`. */
    var delivered: seq<Result>
    /** The inputs sent to the action. */
    ghost var sent: seq<Input>

    constructor ()
      ensures !isExecuting && error.None? && delivered == [] && sent == []
    {
      isExecuting, error, delivered := false, None, [];
      sent := [];
    }

    /** The synchronous start of `handleExecute`: the early return, or the executing flag set and
        the error cleared (both buttons are then disabled) before the call is made. */
    method Start(st: State) returns (input: Option<Input>)
      modifies this
      ensures input == BuildInput(st)
      ensures input.None? ==> isExecuting == old(isExecuting) && error == old(error)
      ensures input.Some? ==> isExecuting && error.None? && BackDisabled(isExecuting) && ExecuteDisabled(isExecuting)
      ensures delivered == old(delivered) && sent == old(sent)
    {
      input := BuildInput(st);
      if input.Some? {
        isExecuting := true;
        error := None;
      }
    }

    /** The continuation after the call: a failure shows its error (or "Unknown error") and
        re-enables the buttons; a success goes to `onResult` and leaves the panel executing;
        a thrown value shows its message and re-enables the buttons. */
    method Finish(outcome: CallOutcome)
      modifies this
      ensures match outcome
              case Returned(r) =>
                if r.success then isExecuting == old(isExecuting) && error == old(error) && delivered == old(delivered) + [r]
                else !isExecuting && error == Some(r.error.GetOr(UnknownErrorMsg)) && delivered == old(delivered)
              case Raised(t) =>
                !isExecuting && error == Some(ThrownMessage(t)) && delivered == old(delivered)
      ensures sent == old(sent)
    {
      match outcome {
        case Returned(r) =>
          if !r.success {
            error := Some(if r.error.Some? then r.error.value else UnknownErrorMsg);
            isExecuting := false;
            return;
          }
          delivered := delivered + [r];
        case Raised(t) =>
          error := Some(if t.ErrorObject? then t.message else UnexpectedErrorMsg);
          isExecuting := false;
      }
    }

    /** `handleExecute`, with the awaited action given as `action`. */
    method HandleExecute(st: State, action: Input -> CallOutcome)
      modifies this
      ensures BuildInput(st).None? ==>
                isExecuting == old(isExecuting) && error == old(error)
                && delivered == old(delivered) && sent == old(sent)
      ensures BuildInput(st).Some? ==>
                var input := BuildInput(st).value;
                && sent == old(sent) + [input]
                && match action(input)
                   case Returned(r) =>
                     if r.success then isExecuting && error.None? && delivered == old(delivered) + [r]
                     else !isExecuting && error == Some(r.error.GetOr(UnknownErrorMsg)) && delivered == old(delivered)
                   case Raised(t) =>
                     !isExecuting && error == Some(ThrownMessage(t)) && delivered == old(delivered)
    {
      var input := Start(st);
      if input.None? {
        return;
      }
      sent := sent + [input.value];
      var outcome := action(input.value);
      Finish(outcome);
    }
  }

  /** Every retry from the same wizard state sends the same idempotency key, so the action answers
      a retry after success from the store instead of creating a second schedule. */
  lemma RetrySendsSameKey(st: State, edit: FieldValue)
    requires FieldOf(edit) != KeyField
    requires BuildInput(st).Some? && BuildInput(Update(st, edit)).Some?
    ensures BuildInput(Update(st, edit)).value.idempotencyKey == BuildInput(st).value.idempotencyKey
  {
    EditsKeepKey(st, edit);
  }
}
