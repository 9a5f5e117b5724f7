/** The create-subscription wizard (apps/console/src/app/workflows/create-subscription/wizard.tsx):
    the state the five steps edit, the step navigation, and the switch to the success view.
    The transitions are pure functions; `Wizard` holds the component's state cells and applies
    them the way the step callbacks do. */
module CreateSubscriptionWizard {
  import opened Wrappers
  import opened Text
  import opened CreateSubscription

  datatype Customer = Customer(
    id: string, sfAccountName: Option<string>, stripeCustomerId: Option<string>, domain: Option<string>)

  datatype State = State(
    customer: Option<Customer>, lineItems: seq<LineItem>, startDate: string, endDate: string,
    billingMode: BillingMode, billingDate: string, idempotencyKey: string)

  const LastStep := 4

  // ---------------------------------------------------------------------------------------
  // Editing the state

  /** The fields of the state, and a value for one of them. */
  datatype Field = CustomerField | LineItemsField | StartDateField | EndDateField
                 | BillingModeField | BillingDateField | KeyField

  datatype FieldValue =
    | CustomerValue(customer: Option<Customer>)
    | LineItemsValue(lineItems: seq<LineItem>)
    | StartDateValue(startDate: string)
    | EndDateValue(endDate: string)
    | BillingModeValue(billingMode: BillingMode)
    | BillingDateValue(billingDate: string)
    | KeyValue(key: string)

  function FieldOf(v: FieldValue): Field {
    match v
    case CustomerValue(_) => CustomerField
    case LineItemsValue(_) => LineItemsField
    case StartDateValue(_) => StartDateField
    case EndDateValue(_) => EndDateField
    case BillingModeValue(_) => BillingModeField
    case BillingDateValue(_) => BillingDateField
    case KeyValue(_) => KeyField
  }

  function Get(st: State, f: Field): FieldValue {
    match f
    case CustomerField => CustomerValue(st.customer)
    case LineItemsField => LineItemsValue(st.lineItems)
    case StartDateField => StartDateValue(st.startDate)
    case EndDateField => EndDateValue(st.endDate)
    case BillingModeField => BillingModeValue(st.billingMode)
    case BillingDateField => BillingDateValue(st.billingDate)
    case KeyField => KeyValue(st.idempotencyKey)
  }

  /** `update(key, value)`: `{ ...prev, [key]: value }`. */
  function Update(prev: State, v: FieldValue): (r: State)
    ensures Get(r, FieldOf(v)) == v
    ensures forall f :: f != FieldOf(v) ==> Get(r, f) == Get(prev, f)
  {
    match v
    case CustomerValue(c) => prev.(customer := c)
    case LineItemsValue(items) => prev.(lineItems := items)
    case StartDateValue(d) => prev.(startDate := d)
    case EndDateValue(d) => prev.(endDate := d)
    case BillingModeValue(m) => prev.(billingMode := m)
    case BillingDateValue(d) => prev.(billingDate := d)
    case KeyValue(k) => prev.(idempotencyKey := k)
  }

  /** The fields determine the state: what `Update` leaves unchanged really is unchanged. */
  lemma FieldsDetermineState(a: State, b: State)
    requires forall f :: Get(a, f) == Get(b, f)
    ensures a == b
  {
    assert Get(a, CustomerField) == Get(b, CustomerField);
    assert Get(a, LineItemsField) == Get(b, LineItemsField);
    assert Get(a, StartDateField) == Get(b, StartDateField);
    assert Get(a, EndDateField) == Get(b, EndDateField);
    assert Get(a, BillingModeField) == Get(b, BillingModeField);
    assert Get(a, BillingDateField) == Get(b, BillingDateField);
    assert Get(a, KeyField) == Get(b, KeyField);
  }

  // ---------------------------------------------------------------------------------------
  // Initial state and key

  /** `` `csub_${Date.now()}_${Math.random().toString(36).slice(2, 10)}` ``, given the clock reading
      and the base-36 text of the random number. */
  function GenerateIdempotencyKey(nowMs: nat, randomText: string): (key: string)
    ensures StartsWith(key, "csub_")
    ensures |"csub_"| + |NatToString(nowMs)| + 1 <= |key| <= |"csub_"| + |NatToString(nowMs)| + 1 + 8
    ensures key[..|"csub_"| + |NatToString(nowMs)| + 1] == "csub_" + NatToString(nowMs) + "_"
  {
    "csub_" + NatToString(nowMs) + "_" + Slice(randomText, 2, 10)
  }

  /** Keys generated at different instants differ, whatever the random parts. */
  lemma KeysFromDistinctInstantsDiffer(a: nat, b: nat, randomA: string, randomB: string)
    requires a != b
    ensures GenerateIdempotencyKey(a, randomA) != GenerateIdempotencyKey(b, randomB)
  {
    var sa, sb := NatToString(a), NatToString(b);
    var ka, kb := GenerateIdempotencyKey(a, randomA), GenerateIdempotencyKey(b, randomB);
    if sa == sb {
      NatToStringInjective(a, b);
    }
    assert forall i :: 0 <= i < |sa| ==> ka[5 + i] == sa[i];
    assert forall i :: 0 <= i < |sb| ==> kb[5 + i] == sb[i];
    if |sa| < |sb| {
      assert ka[5 + |sa|] == '_' && kb[5 + |sa|] == sb[|sa|];
    } else if |sb| < |sa| {
      assert kb[5 + |sb|] == '_' && ka[5 + |sb|] == sa[|sb|];
    } else {
      var i :| 0 <= i < |sa| && sa[i] != sb[i];
      assert ka[5 + i] != kb[5 + i];
    }
  }

  function InitialState(key: string): (st: State)
    ensures st.customer.None? && st.lineItems == [] && st.startDate == "" && st.endDate == ""
    ensures st.billingMode == Now && st.billingDate == "" && st.idempotencyKey == key
  {
    State(None, [], "", "", Now, "", key)
  }

  // ---------------------------------------------------------------------------------------
  // Navigation

  /** `next`: `Math.min(s + 1, 4)`. */
  function NextStep(s: int): (r: int)
    ensures r == if s + 1 <= LastStep then s + 1 else LastStep
    ensures 0 <= s <= LastStep ==> 0 <= r <= LastStep && r >= s
  {
    if s + 1 < LastStep then s + 1 else LastStep
  }

  /** `back`: `Math.max(s - 1, 0)`. */
  function BackStep(s: int): (r: int)
    ensures r == if s - 1 >= 0 then s - 1 else 0
    ensures 0 <= s <= LastStep ==> 0 <= r <= LastStep && r <= s
  {
    if s - 1 > 0 then s - 1 else 0
  }

  /** A step-indicator button is disabled beyond the current step. */
  predicate StepDisabled(step: int, i: int) {
    i > step
  }

  /** Clicking indicator button `i`: `i < step && setStep(i)`, a jump back only. */
  function StepClick(step: int, i: int): (r: int)
    ensures r <= step
    ensures r != step ==> r == i && i < step
    ensures StepDisabled(step, i) ==> r == step
  {
    if i < step then i else step
  }

  /** A navigation action: the Continue and Back buttons, or a click on an indicator button. */
  datatype Nav = Forward | Backward | Jump(index: int)

  function Navigate(step: int, n: Nav): int {
    match n
    case Forward => NextStep(step)
    case Backward => BackStep(step)
    case Jump(i) => StepClick(step, i)
  }

  /** A jump targets one of the five indicator buttons. */
  predicate OnIndicator(n: Nav) {
    n.Jump? ==> 0 <= n.index <= LastStep
  }

  function Run(step: int, navs: seq<Nav>): int
    decreases |navs|
  {
    if navs == [] then step else Run(Navigate(step, navs[0]), navs[1..])
  }

  /** From any step in 0..4, every sequence of navigation actions stays in 0..4. */
  lemma {:induction false} RunStaysInRange(step: int, navs: seq<Nav>)
    requires 0 <= step <= LastStep
    requires forall k :: 0 <= k < |navs| ==> OnIndicator(navs[k])
    ensures 0 <= Run(step, navs) <= LastStep
    decreases |navs|
  {
    if navs != [] {
      assert OnIndicator(navs[0]);
      assert forall k :: 0 <= k < |navs[1..]| ==> navs[1..][k] == navs[k + 1];
      RunStaysInRange(Navigate(step, navs[0]), navs[1..]);
    }
  }

  // ---------------------------------------------------------------------------------------
  // What is shown

  datatype View = SuccessView | StepView(step: int)

  /** `result?.success` selects the success view; anything else renders the current step. */
  function ViewOf(step: int, result: Option<Result>): (v: View)
    ensures v == SuccessView <==> result.Some? && result.value.success
    ensures v != SuccessView ==> v == StepView(step)
  {
    if result.Some? && result.value.success then SuccessView else StepView(step)
  }

  // ---------------------------------------------------------------------------------------
  // The component

  class Wizard {
    var step: int
    var result: Option<Result>
    var state: State
    /** The key generated when the wizard was created. */
    const key: string

    ghost predicate Valid()
      reads this
    {
      0 <= step <= LastStep && state.idempotencyKey == key
    }

    constructor (nowMs: nat, randomText: string)
      ensures Valid()
      ensures step == 0 && result.None?
      ensures state == InitialState(GenerateIdempotencyKey(nowMs, randomText))
    {
      key := GenerateIdempotencyKey(nowMs, randomText);
      step := 0;
      result := None;
      state := InitialState(GenerateIdempotencyKey(nowMs, randomText));
    }

    function CurrentView(): View
      reads this
    {
      ViewOf(step, result)
    }

    /** Step 0, `onSelect`: store the customer and advance one step. */
    method SelectCustomer(c: Customer)
      requires Valid()
      modifies this
      ensures Valid()
      ensures state == Update(old(state), CustomerValue(Some(c)))
      ensures step == NextStep(old(step)) && result == old(result)
    {
      state := state.(customer := Some(c));
      step := NextStep(step);
    }

    /** An `onChange…` callback of steps 1 to 3: write one field, stay on the step. */
    method Edit(v: FieldValue)
      requires Valid() && FieldOf(v) != KeyField && FieldOf(v) != CustomerField
      modifies this
      ensures Valid()
      ensures state == Update(old(state), v)
      ensures step == old(step) && result == old(result)
    {
      state := Update(state, v);
    }

    /** `onNext`. */
    method GoNext()
      requires Valid()
      modifies this
      ensures Valid()
      ensures step == NextStep(old(step)) && state == old(state) && result == old(result)
    {
      step := NextStep(step);
    }

    /** `onBack`. */
    method GoBack()
      requires Valid()
      modifies this
      ensures Valid()
      ensures step == BackStep(old(step)) && state == old(state) && result == old(result)
    {
      step := BackStep(step);
    }

    /** A click on indicator button `i`. */
    method ClickStep(i: int)
      requires Valid() && 0 <= i <= LastStep
      modifies this
      ensures Valid()
      ensures step == StepClick(old(step), i) && state == old(state) && result == old(result)
    {
      if i < step {
        step := i;
      }
    }

    /** Review's `onResult`, which is `setResult`. */
    method ReceiveResult(r: Result)
      requires Valid()
      modifies this
      ensures Valid()
      ensures result == Some(r) && step == old(step) && state == old(state)
      ensures CurrentView() == SuccessView <==> r.success
    {
      result := Some(r);
    }
  }

  /** No step callback writes the key: every edit they make leaves it as it was. */
  lemma EditsKeepKey(st: State, v: FieldValue)
    requires FieldOf(v) != KeyField
    ensures Update(st, v).idempotencyKey == st.idempotencyKey
  {
    assert Get(Update(st, v), KeyField) == Get(st, KeyField);
  }
}
