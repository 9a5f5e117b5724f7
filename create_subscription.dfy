/** The server action that creates a subscription schedule
    (apps/console/src/lib/actions/create-subscription.ts).

    The persistent store holds idempotency-key records, work items and audit logs; the action is a
    state machine over it: replay check, key reservation, validation, provider call, persistence.
    Everything the action takes from outside (the clock, random and database ids, date parsing, the
    environment flags and the billing provider) is a field of `Env`. The `Store` class runs the
    action step by step; the pure functions `Decide`, `Apply` and `Trace` are its specification
    and carry the lemmas. */
module CreateSubscription {
  import opened Wrappers
  import opened Text
  import FeatureFlags

  // ---------------------------------------------------------------------------------------
  // Request and response

  datatype LineItem = LineItem(
    priceId: string, nickname: string, unitAmount: int, currency: string,
    interval: string, quantity: int)

  datatype BillingMode = Now | Future

  datatype Input = Input(
    customerId: string, stripeCustomerId: string, customerName: string,
    lineItems: seq<LineItem>, startDate: string, endDate: string,
    billingMode: BillingMode, billingDate: Option<string>, idempotencyKey: string)

  datatype Result = Result(
    success: bool, error: Option<string>, workItemId: Option<string>,
    stripeScheduleId: Option<string>, stripeSubscriptionId: Option<string>,
    auditLogId: Option<string>)

  function Failure(message: string): Result {
    Result(false, Some(message), None, None, None, None)
  }

  const Scope := "create_subscription"
  const KeyTtlMs := 24 * 60 * 60 * 1000

  const DuplicateMsg := "Duplicate request detected. Please wait and retry."
  const InvalidDatesMsg := "Invalid start or end date."
  const EndNotAfterStartMsg := "End date must be after start date."
  const NoPricesMsg := "At least one price is required."
  const BillingDateRequiredMsg := "Billing date is required for future billing."
  const InvalidBillingDateMsg := "Invalid billing date."
  const BillingInPastMsg := "Billing date must be in the future."
  const BillingAfterEndMsg := "Billing date cannot be after end date."
  const ProviderFallbackMsg := "Stripe API error"

  // ---------------------------------------------------------------------------------------
  // Store records

  datatype KeyRecord = KeyRecord(scope: string, expiresAtMs: int)

  datatype WorkStatus = Pending | InProgress | Completed | Failed | Cancelled

  /** The part of the request a work item keeps. */
  datatype RequestRecord = RequestRecord(
    stripeCustomerId: string, customerName: string, lineItems: seq<LineItem>,
    startDate: string, endDate: string, billingMode: BillingMode, billingDate: Option<string>)

  /** A work item's JSON payload: the fields this action reads back, all optional since a stored
      payload need not have been written by this action. */
  datatype WorkPayload = WorkPayload(
    idempotencyKey: Option<string>, stripeScheduleId: Option<string>,
    stripeSubscriptionId: Option<string>, request: Option<RequestRecord>)

  datatype WorkItem = WorkItem(
    id: string, itemType: string, status: WorkStatus, customerId: string,
    createdById: string, payload: WorkPayload)

  datatype AuditLineItem = AuditLineItem(priceId: string, nickname: string, quantity: int)

  /** An audit payload; `scheduleParams` is `None` where the source records `{ mock: true }`. */
  datatype AuditPayload = AuditPayload(
    workItemId: string, stripeScheduleId: string, stripeSubscriptionId: string,
    scheduleParams: Option<ScheduleParams>, lineItems: seq<AuditLineItem>,
    startDate: string, endDate: string, billingMode: BillingMode, billingDate: Option<string>)

  datatype AuditLog = AuditLog(
    id: string, actorUserId: string, action: string, targetType: string, targetId: string,
    requestId: string, customerId: string, payload: AuditPayload)

  datatype StoreState = StoreState(
    keys: map<string, KeyRecord>, workItems: seq<WorkItem>, auditLogs: seq<AuditLog>)

  // ---------------------------------------------------------------------------------------
  // Billing provider

  datatype PhaseItem = PhaseItem(price: string, quantity: int)

  datatype Phase = Phase(
    startDate: int, endDate: int, items: seq<PhaseItem>, prorationBehavior: string,
    trialEnd: Option<int>)

  datatype ScheduleParams = ScheduleParams(
    customer: string, startDate: int, endBehavior: string, phases: seq<Phase>)

  /** The `subscription` field of a created schedule: absent, an id, or an expanded object. */
  datatype SubscriptionRef = NoSubscription | SubscriptionIdRef(id: string) | SubscriptionObject(objectId: string)

  /** What a failing call throws: an `Error` with a message, or any other value. */
  datatype Thrown = ErrorObject(message: string) | OtherThrown

  datatype ProviderOutcome = Created(scheduleId: string, subscription: SubscriptionRef) | Threw(thrown: Thrown)

  /** The action's surroundings. `parse` is `new Date(s).getTime()` (`None` for NaN); `stripe` is
      the provider's create-schedule call, given the request and the idempotency key it is sent with. */
  datatype Env = Env(
    userId: string, requestId: string, nowMs: int, parse: string -> Option<int>,
    flags: FeatureFlags.Environment, mockScheduleUuid: string, mockSubscriptionUuid: string,
    stripe: (ScheduleParams, string) -> ProviderOutcome, newWorkItemId: string, newAuditLogId: string)

  /** One interaction with the store or the provider, in the order the action performs them.
      `ReserveKey` is the insert attempt, whether or not it succeeds. */
  datatype Effect =
    | FindKey(key: string)
    | FindWorkItem(customerId: string, key: string)
    | ReserveKey(key: string)
    | DeleteKey(key: string)
    | CallProvider(params: ScheduleParams, key: string)
    | CreateWorkItem(id: string)
    | CreateAuditLog(id: string)

  // ---------------------------------------------------------------------------------------
  // Validation

  /** `Math.floor(ms / 1000)`: Dafny's `/` floors for a positive divisor, negative `ms` included. */
  function FloorSeconds(ms: int): int {
    ms / 1000
  }

  /** A JavaScript string option is truthy when present and non-empty. */
  predicate Truthy(s: Option<string>) {
    s.Some? && s.value != ""
  }

  datatype Checked = Valid(startTs: int, endTs: int, billTs: Option<int>) | Invalid(message: string)

  /** The server's input checks, first failure wins. */
  function Validate(input: Input, nowMs: int, parse: string -> Option<int>): (c: Checked)
    ensures c.Valid? ==> parse(input.startDate).Some? && parse(input.endDate).Some?
    ensures c.Valid? ==>
              c.startTs == FloorSeconds(parse(input.startDate).value)
              && c.endTs == FloorSeconds(parse(input.endDate).value)
              && c.startTs < c.endTs && |input.lineItems| > 0
    ensures c.Valid? && input.billingMode == Now ==> c.billTs.None?
    ensures c.Valid? && input.billingMode == Future ==>
              Truthy(input.billingDate) && parse(input.billingDate.value).Some?
              && c.billTs == Some(FloorSeconds(parse(input.billingDate.value).value))
              && FloorSeconds(nowMs) <= c.billTs.value <= c.endTs
  {
    var nowTs := FloorSeconds(nowMs);
    var startMs, endMs := parse(input.startDate), parse(input.endDate);
    if startMs.None? || endMs.None? then Invalid(InvalidDatesMsg)
    else
      var startTs, endTs := FloorSeconds(startMs.value), FloorSeconds(endMs.value);
      if endTs <= startTs then Invalid(EndNotAfterStartMsg)
      else if |input.lineItems| == 0 then Invalid(NoPricesMsg)
      else if input.billingMode == Now then Valid(startTs, endTs, None)
      else if !Truthy(input.billingDate) then Invalid(BillingDateRequiredMsg)
      else
        var billMs := parse(input.billingDate.value);
        if billMs.None? then Invalid(InvalidBillingDateMsg)
        else
          var billTs := FloorSeconds(billMs.value);
          if billTs < nowTs then Invalid(BillingInPastMsg)
          else if billTs > endTs then Invalid(BillingAfterEndMsg)
          else Valid(startTs, endTs, Some(billTs))
  }

  /** One validation rule: whether it holds, and the message reported when it is the first that fails. */
  datatype Rule = Rule(holds: bool, message: string)

  /** The validation rules in the order they are checked. A rule about a value that an earlier
      rule requires (a parsed date, a present billing date) holds vacuously when that value is missing. */
  function Rules(input: Input, nowMs: int, parse: string -> Option<int>): seq<Rule> {
    var startMs, endMs := parse(input.startDate), parse(input.endDate);
    var parsed := startMs.Some? && endMs.Some?;
    var startTs, endTs := FloorSeconds(startMs.GetOr(0)), FloorSeconds(endMs.GetOr(0));
    var future := input.billingMode == Future;
    var present := Truthy(input.billingDate);
    var billMs := if present then parse(input.billingDate.value) else None;
    var billTs := FloorSeconds(billMs.GetOr(0));
    [ Rule(parsed, InvalidDatesMsg),
      Rule(!parsed || endTs > startTs, EndNotAfterStartMsg),
      Rule(|input.lineItems| > 0, NoPricesMsg),
      Rule(!future || present, BillingDateRequiredMsg),
      Rule(!future || !present || billMs.Some?, InvalidBillingDateMsg),
      Rule(!future || billMs.None? || billTs >= FloorSeconds(nowMs), BillingInPastMsg),
      Rule(!future || billMs.None? || billTs <= endTs, BillingAfterEndMsg) ]
  }

  /** The message of the first rule that fails, if any. */
  function FirstFailure(rules: seq<Rule>): (m: Option<string>)
    ensures m.None? <==> forall i :: 0 <= i < |rules| ==> rules[i].holds
    ensures m.Some? ==> exists i :: 0 <= i < |rules| && !rules[i].holds && rules[i].message == m.value
    decreases |rules|
  {
    if rules == [] then None
    else if !rules[0].holds then Some(rules[0].message)
    else
      var m := FirstFailure(rules[1..]);
      assert forall i :: 1 <= i < |rules| ==> rules[i] == rules[1..][i - 1];
      m
  }

  /** Validation reports exactly the first failing rule of the list, and passes when every rule holds. */
  lemma ValidateFollowsRules(input: Input, nowMs: int, parse: string -> Option<int>)
    ensures var rules := Rules(input, nowMs, parse);
            match Validate(input, nowMs, parse)
            case Valid(_, _, _) => FirstFailure(rules).None?
            case Invalid(m) => FirstFailure(rules) == Some(m)
  {
    var r := Rules(input, nowMs, parse);
    FirstFailureOfSeven(r);
    var startMs, endMs := parse(input.startDate), parse(input.endDate);
    var present := Truthy(input.billingDate);
    var billMs := if present then parse(input.billingDate.value) else None;
    assert r[0].holds == (startMs.Some? && endMs.Some?);
    assert r[1].holds == (!r[0].holds || FloorSeconds(endMs.value) > FloorSeconds(startMs.value));
    assert r[3].holds == (input.billingMode == Now || present);
    assert r[4].holds == (input.billingMode == Now || !present || billMs.Some?);
  }

  /** `FirstFailure` over a list of seven rules, written out. */
  lemma FirstFailureOfSeven(r: seq<Rule>)
    requires |r| == 7
    ensures FirstFailure(r) ==
            if !r[0].holds then Some(r[0].message)
            else if !r[1].holds then Some(r[1].message)
            else if !r[2].holds then Some(r[2].message)
            else if !r[3].holds then Some(r[3].message)
            else if !r[4].holds then Some(r[4].message)
            else if !r[5].holds then Some(r[5].message)
            else if !r[6].holds then Some(r[6].message)
            else None
  {
    assert r[0..] == r;
    FirstFailureStep(r, 0);
    FirstFailureStep(r, 1);
    FirstFailureStep(r, 2);
    FirstFailureStep(r, 3);
    FirstFailureStep(r, 4);
    FirstFailureStep(r, 5);
    FirstFailureStep(r, 6);
    assert r[7..] == [];
  }

  lemma FirstFailureStep(rules: seq<Rule>, k: nat)
    requires k < |rules|
    ensures FirstFailure(rules[k..]) == if !rules[k].holds then Some(rules[k].message) else FirstFailure(rules[k + 1..])
  {
    assert rules[k..][0] == rules[k];
    assert rules[k..][1..] == rules[k + 1..];
  }

  /** In future mode, once the period and items are valid and the billing date parses, the billing
      timestamp is accepted exactly when it lies in [now, end], both ends included. */
  lemma BillingWindow(input: Input, nowMs: int, parse: string -> Option<int>)
    requires input.billingMode == Future && Truthy(input.billingDate)
    requires parse(input.startDate).Some? && parse(input.endDate).Some?
    requires parse(input.billingDate.value).Some?
    requires FloorSeconds(parse(input.startDate).value) < FloorSeconds(parse(input.endDate).value)
    requires |input.lineItems| > 0
    ensures var billTs := FloorSeconds(parse(input.billingDate.value).value);
            var endTs := FloorSeconds(parse(input.endDate).value);
            Validate(input, nowMs, parse).Valid? <==> FloorSeconds(nowMs) <= billTs <= endTs
  {
  }

  /** "now" mode never looks at the billing date. */
  lemma NowModeIgnoresBillingDate(input: Input, nowMs: int, parse: string -> Option<int>, other: Option<string>)
    requires input.billingMode == Now
    ensures Validate(input, nowMs, parse) == Validate(input.(billingDate := other), nowMs, parse)
  {
  }

  // ---------------------------------------------------------------------------------------
  // Provider request

  /** The phase items: one (price, quantity) pair per line item, in line-item order. */
  function PhaseItems(items: seq<LineItem>): (r: seq<PhaseItem>)
    ensures |r| == |items|
    ensures forall i :: 0 <= i < |items| ==> r[i] == PhaseItem(items[i].priceId, items[i].quantity)
    decreases |items|
  {
    if items == [] then [] else [PhaseItem(items[0].priceId, items[0].quantity)] + PhaseItems(items[1..])
  }

  /** `if (billTs) phase.trial_end = billTs`: a null or zero timestamp sets no trial. */
  function TrialEnd(billTs: Option<int>): (t: Option<int>)
    ensures t.Some? <==> billTs.Some? && billTs.value != 0
    ensures t.Some? ==> t == billTs
  {
    if billTs.Some? && billTs.value != 0 then billTs else None
  }

  function BuildParams(input: Input, startTs: int, endTs: int, billTs: Option<int>): ScheduleParams {
    ScheduleParams(input.stripeCustomerId, startTs, "cancel",
                   [Phase(startTs, endTs, PhaseItems(input.lineItems), "none", TrialEnd(billTs))])
  }

  /** The subscription id taken from a created schedule: the string, the object's id, or "". */
  function SubscriptionIdOf(sub: SubscriptionRef): (id: string)
    ensures sub.NoSubscription? ==> id == ""
    ensures sub.SubscriptionIdRef? ==> id == sub.id
    ensures sub.SubscriptionObject? ==> id == sub.objectId
  {
    match sub
    case NoSubscription => ""
    case SubscriptionIdRef(id) => id
    case SubscriptionObject(id) => id
  }

  /** The message of a failed provider call: an `Error`'s own message, or the fallback text. */
  function ProviderErrorMessage(t: Thrown): (m: string)
    ensures t.ErrorObject? ==> m == t.message
    ensures t.OtherThrown? ==> m == "Stripe API error"
  {
    match t
    case ErrorObject(message) => message
    case OtherThrown => ProviderFallbackMsg
  }

  /** The mock schedule id: the fixed prefix, then the first eight characters of a fresh UUID. */
  function MockScheduleId(env: Env): (id: string)
    ensures StartsWith(id, "sub_sched_mock_")
    ensures id[|"sub_sched_mock_"|..] == Take(env.mockScheduleUuid, 8)
  {
    "sub_sched_mock_" + Take(env.mockScheduleUuid, 8)
  }

  /** The mock subscription id: the fixed prefix, then the first eight characters of a fresh UUID. */
  function MockSubscriptionId(env: Env): (id: string)
    ensures StartsWith(id, "sub_mock_")
    ensures id[|"sub_mock_"|..] == Take(env.mockSubscriptionUuid, 8)
  {
    "sub_mock_" + Take(env.mockSubscriptionUuid, 8)
  }

  // ---------------------------------------------------------------------------------------
  // Replay lookup

  /** A work item that records a completed creation for this customer under this key. */
  predicate IsReplayMatch(w: WorkItem, customerId: string, key: string) {
    w.itemType == Scope && w.customerId == customerId && w.payload.idempotencyKey == Some(key)
  }

  /** `findFirst` over the work items, in stored order: the index of the first match. */
  function FirstMatch(items: seq<WorkItem>, customerId: string, key: string): (r: Option<nat>)
    ensures r.Some? ==> r.value < |items| && IsReplayMatch(items[r.value], customerId, key)
    ensures r.Some? ==> forall j :: 0 <= j < r.value ==> !IsReplayMatch(items[j], customerId, key)
    ensures r.None? ==> forall j :: 0 <= j < |items| ==> !IsReplayMatch(items[j], customerId, key)
    decreases |items|
  {
    if items == [] then None
    else if IsReplayMatch(items[0], customerId, key) then Some(0)
    else
      match FirstMatch(items[1..], customerId, key)
      case None => None
      case Some(i) => Some(i + 1)
  }

  function ReplayResult(w: WorkItem): Result {
    Result(true, None, Some(w.id), w.payload.stripeScheduleId, w.payload.stripeSubscriptionId, None)
  }

  // ---------------------------------------------------------------------------------------
  // The action as a decision and its effects

  /** How one call ends. `sent` is the provider request, when one was made. */
  datatype Decision =
    | Replay(item: WorkItem)
    | Conflict
    | Rejected(message: string, rejectedSent: Option<ScheduleParams>)
    | Done(scheduleId: string, subscriptionId: string, sent: Option<ScheduleParams>)

  /** The lookup the replay check makes: only while the key record exists. */
  function ReplayLookup(st: StoreState, input: Input): Option<nat> {
    if input.idempotencyKey in st.keys then FirstMatch(st.workItems, input.customerId, input.idempotencyKey)
    else None
  }

  /** What happens once the key is reserved: validation, then the mock ids or the provider call. */
  function Process(input: Input, env: Env): (d: Decision)
    ensures d.Rejected? || d.Done?
  {
    match Validate(input, env.nowMs, env.parse)
    case Invalid(m) => Rejected(m, None)
    case Valid(startTs, endTs, billTs) =>
      if FeatureFlags.UseMockStripe(env.flags) then Done(MockScheduleId(env), MockSubscriptionId(env), None)
      else
        var params := BuildParams(input, startTs, endTs, billTs);
        match env.stripe(params, input.idempotencyKey)
        case Created(id, sub) => Done(id, SubscriptionIdOf(sub), Some(params))
        case Threw(t) => Rejected(ProviderErrorMessage(t), Some(params))
  }

  /** Replay check, then reservation, then the rest. */
  function Decide(st: StoreState, input: Input, env: Env): Decision {
    var found := ReplayLookup(st, input);
    if found.Some? then Replay(st.workItems[found.value])
    else if input.idempotencyKey in st.keys then Conflict
    else Process(input, env)
  }

  function NewWorkItem(input: Input, env: Env, scheduleId: string, subscriptionId: string): WorkItem {
    WorkItem(env.newWorkItemId, Scope, Completed, input.customerId, env.userId,
             WorkPayload(Some(input.idempotencyKey), Some(scheduleId), Some(subscriptionId),
                         Some(RequestRecord(input.stripeCustomerId, input.customerName, input.lineItems,
                                            input.startDate, input.endDate, input.billingMode,
                                            input.billingDate))))
  }

  function AuditLineItems(items: seq<LineItem>): (r: seq<AuditLineItem>)
    ensures |r| == |items|
    ensures forall i :: 0 <= i < |items| ==>
              r[i] == AuditLineItem(items[i].priceId, items[i].nickname, items[i].quantity)
    decreases |items|
  {
    if items == [] then []
    else [AuditLineItem(items[0].priceId, items[0].nickname, items[0].quantity)] + AuditLineItems(items[1..])
  }

  function NewAuditLog(input: Input, env: Env, scheduleId: string, subscriptionId: string,
                       sent: Option<ScheduleParams>): AuditLog {
    AuditLog(env.newAuditLogId, env.userId, "subscription.created", "stripe_subscription_schedule",
             scheduleId, env.requestId, input.customerId,
             AuditPayload(env.newWorkItemId, scheduleId, subscriptionId, sent,
                          AuditLineItems(input.lineItems), input.startDate, input.endDate,
                          input.billingMode, input.billingDate))
  }

  datatype Step = Step(result: Result, state: StoreState)

  /** The store once the key record is inserted. */
  function Reserved(st: StoreState, input: Input, env: Env): StoreState {
    st.(keys := st.keys[input.idempotencyKey := KeyRecord(Scope, env.nowMs + KeyTtlMs)])
  }

  /** The result of a call that got past the reservation, and the store it leaves, starting from
      the store with the key reserved: a rejection releases the key, a completion records it. */
  function Settle(st: StoreState, input: Input, env: Env, d: Decision): Step
    requires d.Rejected? || d.Done?
  {
    match d
    case Rejected(m, _) => Step(Failure(m), st.(keys := st.keys - {input.idempotencyKey}))
    case Done(sched, sub, sent) =>
      var w := NewWorkItem(input, env, sched, sub);
      var a := NewAuditLog(input, env, sched, sub, sent);
      Step(Result(true, None, Some(w.id), Some(sched), Some(sub), Some(a.id)),
           StoreState(st.keys, st.workItems + [w], st.auditLogs + [a]))
  }

  /** The result of one call and the store it leaves behind. */
  function Apply(st: StoreState, input: Input, env: Env): Step {
    match Decide(st, input, env)
    case Replay(w) => Step(ReplayResult(w), st)
    case Conflict => Step(Failure(DuplicateMsg), st)
    case Rejected(_, _) => Settle(Reserved(st, input, env), input, env, Decide(st, input, env))
    case Done(_, _, _) => Settle(Reserved(st, input, env), input, env, Decide(st, input, env))
  }

  /** The replay check's reads: the key record, then the work items only when the record exists. */
  function Lookups(st: StoreState, input: Input): seq<Effect> {
    var key := input.idempotencyKey;
    if key in st.keys then [FindKey(key), FindWorkItem(input.customerId, key)] else [FindKey(key)]
  }

  /** The interactions after the reservation: the provider call, if made, then the release or
      the two inserts. */
  function SettleEffects(input: Input, env: Env, d: Decision): seq<Effect>
    requires d.Rejected? || d.Done?
  {
    var key := input.idempotencyKey;
    match d
    case Rejected(_, sent) =>
      (if sent.Some? then [CallProvider(sent.value, key)] else []) + [DeleteKey(key)]
    case Done(_, _, sent) =>
      (if sent.Some? then [CallProvider(sent.value, key)] else [])
      + [CreateWorkItem(env.newWorkItemId), CreateAuditLog(env.newAuditLogId)]
  }

  /** The interactions of one call, in order. */
  function Trace(st: StoreState, input: Input, env: Env): seq<Effect> {
    var key := input.idempotencyKey;
    var lookups := Lookups(st, input);
    match Decide(st, input, env)
    case Replay(_) => lookups
    case Conflict => lookups + [ReserveKey(key)]
    case Rejected(_, _) => lookups + [ReserveKey(key)] + SettleEffects(input, env, Decide(st, input, env))
    case Done(_, _, _) => lookups + [ReserveKey(key)] + SettleEffects(input, env, Decide(st, input, env))
  }

  /** A call that finds its replay answers with the stored ids after the two lookups. */
  lemma ApplyReplay(st: StoreState, input: Input, env: Env)
    requires ReplayLookup(st, input).Some?
    ensures Apply(st, input, env) == Step(ReplayResult(st.workItems[ReplayLookup(st, input).value]), st)
    ensures Trace(st, input, env) == Lookups(st, input)
  {
  }

  /** A call whose key is held without a replay fails at the reservation. */
  lemma ApplyConflict(st: StoreState, input: Input, env: Env)
    requires ReplayLookup(st, input).None? && input.idempotencyKey in st.keys
    ensures Apply(st, input, env) == Step(Failure(DuplicateMsg), st)
    ensures Trace(st, input, env) == Lookups(st, input) + [ReserveKey(input.idempotencyKey)]
  {
  }

  /** A call that finds no replay and reserves its key is settled by `Process` from the reserved store. */
  lemma ApplyAfterReservation(st: StoreState, input: Input, env: Env)
    requires ReplayLookup(st, input).None? && input.idempotencyKey !in st.keys
    ensures Apply(st, input, env) == Settle(Reserved(st, input, env), input, env, Process(input, env))
    ensures Trace(st, input, env) ==
            [FindKey(input.idempotencyKey), ReserveKey(input.idempotencyKey)] + SettleEffects(input, env, Process(input, env))
  {
  }

  // ---------------------------------------------------------------------------------------
  // The action, step by step

  /** The server's input checks as the action runs them, returning at the first failure. */
  method CheckInput(input: Input, nowMs: int, parse: string -> Option<int>) returns (c: Checked)
    ensures c == Validate(input, nowMs, parse)
  {
    var nowTs := FloorSeconds(nowMs);
    var startMs, endMs := parse(input.startDate), parse(input.endDate);
    if startMs.None? || endMs.None? {
      return Invalid(InvalidDatesMsg);
    }
    var startTs, endTs := FloorSeconds(startMs.value), FloorSeconds(endMs.value);
    if endTs <= startTs {
      return Invalid(EndNotAfterStartMsg);
    }
    if |input.lineItems| == 0 {
      return Invalid(NoPricesMsg);
    }
    var billTs: Option<int> := None;
    if input.billingMode == Future {
      if !Truthy(input.billingDate) {
        return Invalid(BillingDateRequiredMsg);
      }
      var billMs := parse(input.billingDate.value);
      if billMs.None? {
        return Invalid(InvalidBillingDateMsg);
      }
      billTs := Some(FloorSeconds(billMs.value));
      if billTs.value < nowTs {
        return Invalid(BillingInPastMsg);
      }
      if billTs.value > endTs {
        return Invalid(BillingAfterEndMsg);
      }
    }
    return Valid(startTs, endTs, billTs);
  }

  class Store {
    var keys: map<string, KeyRecord>
    var workItems: seq<WorkItem>
    var auditLogs: seq<AuditLog>
    /** Every store and provider interaction so far. */
    ghost var effects: seq<Effect>

    function State(): StoreState
      reads this
    {
      StoreState(keys, workItems, auditLogs)
    }

    constructor (initial: StoreState)
      ensures State() == initial && effects == []
    {
      keys, workItems, auditLogs := initial.keys, initial.workItems, initial.auditLogs;
      effects := [];
    }

    /** `releaseKey`: delete the key record; a missing record is no error. */
    method ReleaseKey(key: string)
      modifies this
      ensures keys == old(keys) - {key}
      ensures workItems == old(workItems) && auditLogs == old(auditLogs)
      ensures effects == old(effects) + [DeleteKey(key)]
    {
      keys := keys - {key};
      effects := effects + [DeleteKey(key)];
    }

    /** The replay check: the first matching work item, looked for only while the key record exists. */
    method FindReplay(input: Input) returns (found: Option<WorkItem>)
      modifies this
      ensures State() == old(State())
      ensures var i := ReplayLookup(old(State()), input);
              found == if i.Some? then Some(workItems[i.value]) else None
      ensures effects == old(effects) + Lookups(old(State()), input)
    {
      var key := input.idempotencyKey;
      effects := effects + [FindKey(key)];
      found := None;
      if key in keys {
        effects := effects + [FindWorkItem(input.customerId, key)];
        var i := FirstMatch(workItems, input.customerId, key);
        if i.Some? {
          found := Some(workItems[i.value]);
        }
      }
    }

    /** The reservation insert, which fails on the unique key when a record already exists. */
    method Reserve(key: string, nowMs: int) returns (reserved: bool)
      modifies this
      ensures reserved <==> key !in old(keys)
      ensures keys == if reserved then old(keys)[key := KeyRecord(Scope, nowMs + KeyTtlMs)] else old(keys)
      ensures workItems == old(workItems) && auditLogs == old(auditLogs)
      ensures effects == old(effects) + [ReserveKey(key)]
    {
      effects := effects + [ReserveKey(key)];
      if key in keys {
        return false;
      }
      keys := keys[key := KeyRecord(Scope, nowMs + KeyTtlMs)];
      return true;
    }

    /** Build the one-phase schedule request and send it with the idempotency key. */
    method CallStripe(input: Input, env: Env, startTs: int, endTs: int, billTs: Option<int>)
      returns (outcome: ProviderOutcome, params: ScheduleParams)
      modifies this
      ensures params == BuildParams(input, startTs, endTs, billTs)
      ensures outcome == env.stripe(params, input.idempotencyKey)
      ensures State() == old(State())
      ensures effects == old(effects) + [CallProvider(params, input.idempotencyKey)]
    {
      var phase := Phase(startTs, endTs, PhaseItems(input.lineItems), "none", None);
      if billTs.Some? && billTs.value != 0 {
        phase := phase.(trialEnd := billTs);
      }
      params := ScheduleParams(input.stripeCustomerId, startTs, "cancel", [phase]);
      effects := effects + [CallProvider(params, input.idempotencyKey)];
      outcome := env.stripe(params, input.idempotencyKey);
    }

    /** Persist the completed work item and its audit log, and report both ids. */
    method Record(input: Input, env: Env, scheduleId: string, subscriptionId: string,
                  sent: Option<ScheduleParams>) returns (r: Result)
      modifies this
      ensures keys == old(keys)
      ensures workItems == old(workItems) + [NewWorkItem(input, env, scheduleId, subscriptionId)]
      ensures auditLogs == old(auditLogs) + [NewAuditLog(input, env, scheduleId, subscriptionId, sent)]
      ensures effects == old(effects) + [CreateWorkItem(env.newWorkItemId), CreateAuditLog(env.newAuditLogId)]
      ensures r == Result(true, None, Some(env.newWorkItemId), Some(scheduleId), Some(subscriptionId),
                          Some(env.newAuditLogId))
    {
      var workItem := WorkItem(env.newWorkItemId, Scope, Completed, input.customerId, env.userId,
                               WorkPayload(Some(input.idempotencyKey), Some(scheduleId), Some(subscriptionId),
                                           Some(RequestRecord(input.stripeCustomerId, input.customerName,
                                                              input.lineItems, input.startDate, input.endDate,
                                                              input.billingMode, input.billingDate))));
      workItems := workItems + [workItem];
      effects := effects + [CreateWorkItem(workItem.id)];
      var auditLog := AuditLog(env.newAuditLogId, env.userId, "subscription.created",
                               "stripe_subscription_schedule", scheduleId, env.requestId, input.customerId,
                               AuditPayload(workItem.id, scheduleId, subscriptionId, sent,
                                            AuditLineItems(input.lineItems), input.startDate, input.endDate,
                                            input.billingMode, input.billingDate));
      auditLogs := auditLogs + [auditLog];
      effects := effects + [CreateAuditLog(auditLog.id)];
      r := Result(true, None, Some(workItem.id), Some(scheduleId), Some(subscriptionId), Some(auditLog.id));
    }

    /** Everything after a successful reservation: validation, the provider call (or the mock
        ids), then either the key's release or the work item and audit log. */
    method Proceed(input: Input, env: Env) returns (r: Result)
      modifies this
      ensures r == Settle(old(State()), input, env, Process(input, env)).result
      ensures State() == Settle(old(State()), input, env, Process(input, env)).state
      ensures effects == old(effects) + SettleEffects(input, env, Process(input, env))
    {
      var key := input.idempotencyKey;
      var checked := CheckInput(input, env.nowMs, env.parse);
      if checked.Invalid? {
        ReleaseKey(key);
        return Failure(checked.message);
      }

      var scheduleId, subscriptionId := "", "";
      var sent: Option<ScheduleParams> := None;
      if FeatureFlags.UseMockStripe(env.flags) {
        scheduleId := "sub_sched_mock_" + Take(env.mockScheduleUuid, 8);
        subscriptionId := "sub_mock_" + Take(env.mockSubscriptionUuid, 8);
      } else {
        var outcome, params := CallStripe(input, env, checked.startTs, checked.endTs, checked.billTs);
        sent := Some(params);
        match outcome {
          case Threw(t) =>
            var message := if t.ErrorObject? then t.message else ProviderFallbackMsg;
            ReleaseKey(key);
            return Failure(message);
          case Created(id, sub) =>
            scheduleId := id;
            subscriptionId := match sub
              case NoSubscription => ""
              case SubscriptionIdRef(s) => s
              case SubscriptionObject(s) => s;
        }
      }

      r := Record(input, env, scheduleId, subscriptionId, sent);
    }

    /** `executeCreateSubscription(input)`. */
    method Execute(input: Input, env: Env) returns (r: Result)
      modifies this
      ensures r == Apply(old(State()), input, env).result
      ensures State() == Apply(old(State()), input, env).state
      ensures effects == old(effects) + Trace(old(State()), input, env)
    {
      var key := input.idempotencyKey;

      var found := FindReplay(input);
      if found.Some? {
        var w := found.value;
        ApplyReplay(old(State()), input, env);
        return Result(true, None, Some(w.id), w.payload.stripeScheduleId, w.payload.stripeSubscriptionId, None);
      }

      var reserved := Reserve(key, env.nowMs);
      if !reserved {
        ApplyConflict(old(State()), input, env);
        return Failure(DuplicateMsg);
      }

      assert State() == Reserved(old(State()), input, env);
      ApplyAfterReservation(old(State()), input, env);
      r := Proceed(input, env);
    }
  }
}
