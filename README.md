# Create-subscription workflow of the OmniBridge console, in Dafny

This project models the create-subscription workflow of the OmniBridge operations console
(`apps/console`), and proves properties of that model. An operator creates a provider
subscription schedule for a customer through a five-step wizard: customer, prices, period,
billing, review. The wizard then calls one idempotent server action.

The model covers four parts:

- **The server action** `executeCreateSubscription` (module `CreateSubscription`, file
  `create_subscription.dfy`).
  - `Store` is a class. Its fields are the reserved idempotency keys (a map from key to its
    record), the work items and the audit logs, plus a ghost log of every store and provider
    interaction.
  - `Store.Execute` runs the steps in the action's order:
    1. the replay check, which runs only while the key record exists;
    2. the reservation insert, which fails when the key is already present;
    3. validation, where the first failure wins;
    4. the mock ids, or the provider call with the idempotency key;
    5. the work item and the audit log.

    On every failure after the reservation, it releases the key.
  - `Execute` is proved against the pure specification `Decide`/`Apply`/`Trace`. The
    properties of the action are lemmas about that specification, in module
    `SubscriptionProperties` (`create_subscription_properties.dfy`). They cover replay, conflict,
    rejection, completion, the provider request, consistency of the store and idempotency.
- **The wizard** (`CreateSubscriptionWizard`, `wizard.tsx`):
  - the wizard state and its field update;
  - the step navigation clamped to 0..4, and the step-indicator jump rule;
  - the idempotency key, generated once;
  - the switch to the success view.

  `Wizard` is a class holding the component's state cells.
- **The steps**:
  - `PickPrices`: add, change quantity and remove line items, the available prices, and the
    button rules;
  - `PickDates`: period validity, the error and backdating note, and the duration text;
  - `PickBilling`: billing validity and the warning;
  - `ReviewStep`: the integer-cents total, the action input, and the executing flag and error
    around the call, as class `ReviewPanel`.

  The client checks are related to the server's validation rules.
- **Helpers**:
  - `StripePrices`: the mock price search and the mapping of live price records;
  - `Format`: the `formatRelative` age buckets, and the seconds-to-milliseconds rule of
    `formatDate`;
  - `FeatureFlags`: the mock-mode decision tables over environment strings.

The rest of the program's surroundings become parameters:

- The clock reading, the generated UUIDs and row ids, the session's user id and the request id
  are fields of `CreateSubscription.Env`.
- Date parsing (`new Date(s).getTime()`) is a function `string -> Option<int>`, in milliseconds,
  where `None` stands for NaN.
- The provider is a function from the schedule request and the idempotency key to an outcome:
  a created schedule, or a thrown value.

JavaScript arithmetic is written out:

- `Math.floor(ms / 1000)` is Dafny's floor division.
- `Math.round(days / 30.44)` is `(100 * days + 1522) / 3044`. The quotient of that division is
  never exactly halfway between two integers, so no rounding tie arises.
- `Math.round(months / 12)` is `(months + 6) / 12`.

Three facts about the action's code matter for idempotency, and the model keeps them:

- The action replays only when the key record still exists
  (`create-subscription.ts:54`). It never reads the record's `expiresAt`: the expiry time is
  written (line 80) and never consulted.
- A replayed result carries no audit log id, only the work item id and the two provider ids
  (lines 65-70).
- The key record's scope is written (line 79) but not checked by the replay lookup
  (lines 55-61).

## Model

| member | source | states |
|---|---|---|
| CreateSubscription.Store.Execute | apps/console/src/lib/actions/create-subscription.ts:42-240 | returns the result and leaves the store that `Apply` specifies; appends exactly the interactions `Trace` lists, in order |
| CreateSubscription.Store.ReleaseKey | apps/console/src/lib/actions/create-subscription.ts:38-40 | deletes the key record (a missing key is no error) and changes nothing else |
| CreateSubscription.Store.FindReplay | apps/console/src/lib/actions/create-subscription.ts:50-71 | reads the key record, and the work items only when the record exists; returns the first matching work item; writes nothing |
| CreateSubscription.Store.Reserve | apps/console/src/lib/actions/create-subscription.ts:74-85 | succeeds exactly when the key is absent, then inserts it with scope `create_subscription` and expiry now + 24 h; otherwise leaves the store as it was |
| CreateSubscription.Store.CallStripe | apps/console/src/lib/actions/create-subscription.ts:141-170 | builds the one-phase request `BuildParams` describes and sends it with the input's idempotency key; the store is unchanged |
| CreateSubscription.Store.Record | apps/console/src/lib/actions/create-subscription.ts:186-239 | appends one work item and one audit log, keeps the keys, and returns success with both row ids and both provider ids |
| CreateSubscription.Store.Proceed | apps/console/src/lib/actions/create-subscription.ts:87-239 | after a reservation: releases the key on a validation or provider failure, and records the creation otherwise, exactly as `Settle` of `Process` specifies |
| CreateSubscription.Store.constructor | apps/console/src/lib/actions/create-subscription.ts:42-48 | the store starts from a given state with no interactions logged |
| CreateSubscription.CheckInput | apps/console/src/lib/actions/create-subscription.ts:88-124 | the early-return checks compute exactly `Validate` |
| CreateSubscription.Validate | apps/console/src/lib/actions/create-subscription.ts:88-124 | a valid input has parsed dates, floored start before floored end, and at least one line item; "now" mode yields no billing timestamp; "future" mode yields a present, parsed billing timestamp within [now, end] |
| CreateSubscription.FirstFailure | apps/console/src/lib/actions/create-subscription.ts:92-124 | no failure exactly when every rule holds; a reported message is that of a failing rule |
| CreateSubscription.ValidateFollowsRules | apps/console/src/lib/actions/create-subscription.ts:88-124 | validation passes exactly when all seven ordered rules hold, and otherwise reports the message of the first rule that fails |
| CreateSubscription.FirstFailureOfSeven | apps/console/src/lib/actions/create-subscription.ts:92-123 | over seven rules, the first failure is the first rule in order that is false |
| CreateSubscription.BillingWindow | apps/console/src/lib/actions/create-subscription.ts:105-124 | in future mode, with a valid period and items, the billing timestamp is accepted exactly when floor(now) <= billTs <= endTs, both ends included |
| CreateSubscription.NowModeIgnoresBillingDate | apps/console/src/lib/actions/create-subscription.ts:105-106 | in "now" mode the billing date has no effect on validation |
| CreateSubscription.PhaseItems | apps/console/src/lib/actions/create-subscription.ts:141-144 | one (price, quantity) pair per line item, in line-item order |
| CreateSubscription.TrialEnd | apps/console/src/lib/actions/create-subscription.ts:156-158 | the trial end is set exactly when the billing timestamp is present and non-zero, and then equals it |
| CreateSubscription.SubscriptionIdOf | apps/console/src/lib/actions/create-subscription.ts:173-177 | the subscription id is the string when the schedule's subscription is one, the object's id when it is expanded, and "" when absent |
| CreateSubscription.ProviderErrorMessage | apps/console/src/lib/actions/create-subscription.ts:179 | the message of an `Error`, or "Stripe API error" for any other thrown value |
| CreateSubscription.MockScheduleId | apps/console/src/lib/actions/create-subscription.ts:134 | the prefix `sub_sched_mock_` followed by the first eight characters of a fresh UUID |
| CreateSubscription.MockSubscriptionId | apps/console/src/lib/actions/create-subscription.ts:135 | the prefix `sub_mock_` followed by the first eight characters of a fresh UUID |
| CreateSubscription.BuildParams | apps/console/src/lib/actions/create-subscription.ts:149-165 | the schedule request: customer, start, end behaviour "cancel", and one phase over the period with the phase items, proration "none" and the trial end; its shape is stated by `SubscriptionProperties.ProviderRequestShape` |
| CreateSubscription.FirstMatch | apps/console/src/lib/actions/create-subscription.ts:55-61 | finds the index of the first work item with this type, customer and key, and reports none only when no item matches |
| CreateSubscription.Process | apps/console/src/lib/actions/create-subscription.ts:87-183 | once the key is reserved, a call either is rejected or completes; it never replays or conflicts. What each provider answer becomes is stated by `SubscriptionProperties.ProviderOutcomeDecidesResult` |
| CreateSubscription.FloorSeconds | apps/console/src/lib/actions/create-subscription.ts:88-90 | `Math.floor(ms / 1000)`; order-preserving by `PickBilling.FloorSecondsMonotone` |
| CreateSubscription.Truthy | apps/console/src/lib/actions/create-subscription.ts:107 | a string option is truthy exactly when present and non-empty |
| CreateSubscription.Rules | apps/console/src/lib/actions/create-subscription.ts:92-123 | the seven checks as an ordered list of (holds, message) pairs; its agreement with `Validate` is `CreateSubscription.ValidateFollowsRules` |
| CreateSubscription.IsReplayMatch | apps/console/src/lib/actions/create-subscription.ts:56-60 | the replay lookup's filter: type `create_subscription`, the same customer, and the key in the payload |
| CreateSubscription.ReplayLookup | apps/console/src/lib/actions/create-subscription.ts:50-61 | the first matching work item, looked for only while the key record exists |
| CreateSubscription.ReplayResult | apps/console/src/lib/actions/create-subscription.ts:64-70 | the replayed result: success, the work item's id and its payload's provider ids, no audit log id |
| CreateSubscription.Decide | apps/console/src/lib/actions/create-subscription.ts:50-183 | replay if found, else conflict if the key is held, else the outcome of validation and the provider |
| CreateSubscription.Reserved | apps/console/src/lib/actions/create-subscription.ts:76-82 | the store with the key record inserted, scope `create_subscription`, expiring 24 h after now |
| CreateSubscription.NewWorkItem | apps/console/src/lib/actions/create-subscription.ts:186-205 | the completed work item: type, status, customer, creator, and a payload with the key, the provider ids and the request |
| CreateSubscription.AuditLineItems | apps/console/src/lib/actions/create-subscription.ts:220-224 | one (price id, nickname, quantity) entry per line item, in order |
| CreateSubscription.NewAuditLog | apps/console/src/lib/actions/create-subscription.ts:207-231 | the audit log: actor, action `subscription.created`, target the schedule, request id, customer, and a payload with the work item id, the provider ids and the request (none in mock mode) |
| CreateSubscription.Settle | apps/console/src/lib/actions/create-subscription.ts:92-239 | after a reservation, a rejection deletes the key and reports its message; a completion appends the work item and audit log and reports all four ids |
| CreateSubscription.Apply | apps/console/src/lib/actions/create-subscription.ts:42-240 | the result and the new store of one call; its properties are the lemmas of `SubscriptionProperties` |
| CreateSubscription.Lookups | apps/console/src/lib/actions/create-subscription.ts:50-61 | the key lookup, followed by the work-item lookup only when the key record exists |
| CreateSubscription.SettleEffects | apps/console/src/lib/actions/create-subscription.ts:167-231 | the provider call if made, then either the key's deletion or the two inserts |
| CreateSubscription.Trace | apps/console/src/lib/actions/create-subscription.ts:42-240 | the interactions of one call in order; their order is stated by `ReplayReturnsStoredIds`, `ConflictChangesNothing`, `ProviderRequestShape` and the other `SubscriptionProperties` lemmas |
| CreateSubscription.ApplyReplay | apps/console/src/lib/actions/create-subscription.ts:50-71 | a found replay answers with the stored ids, leaves the store unchanged, and makes only the two lookups |
| CreateSubscription.ApplyConflict | apps/console/src/lib/actions/create-subscription.ts:74-85 | a held key without a replay fails with the duplicate message and leaves the store unchanged |
| CreateSubscription.ApplyAfterReservation | apps/console/src/lib/actions/create-subscription.ts:50-85 | a call with no key record reserves the key and is then settled by validation and the provider |
| SubscriptionProperties.ReplayReturnsStoredIds | apps/console/src/lib/actions/create-subscription.ts:50-71 | with the key record present and a matching work item, the result is success with that item's id and its payload's provider ids; no audit log id; no writes; the only interactions are the key lookup and the work-item lookup |
| SubscriptionProperties.ReplayNeedsKeyRecord | apps/console/src/lib/actions/create-subscription.ts:50-82 | with no key record, no replay happens even if a matching work item exists; the work items are not read and the next interaction is the reservation |
| SubscriptionProperties.ConflictChangesNothing | apps/console/src/lib/actions/create-subscription.ts:74-85 | a key record without a replay fails with "Duplicate request detected. Please wait and retry.", leaves keys, work items and audit logs unchanged, and releases nothing |
| SubscriptionProperties.RejectionLeavesStoreUnchanged | apps/console/src/lib/actions/create-subscription.ts:92-123 | a fresh call that fails (validation or provider error, lines 178-182) returns that message, ends by releasing its key, writes no work item or audit log, and leaves the store exactly as it found it |
| SubscriptionProperties.CompletionRecordsOnce | apps/console/src/lib/actions/create-subscription.ts:186-239 | a fresh success keeps the key reserved, deletes no key, and appends exactly one completed `create_subscription` work item and one `subscription.created` audit log, each carrying the right fields; the result carries both row ids; the request is logged exactly outside mock mode |
| SubscriptionProperties.ProviderOutcomeDecidesResult | apps/console/src/lib/actions/create-subscription.ts:167-239 | for a fresh valid call outside mock mode, whatever the provider answers to the built request: a created schedule gives success with its id and `SubscriptionIdOf` its subscription, recorded in one work item and one audit log that holds the request; a thrown `Error` gives its message and a thrown other value "Stripe API error", and both leave the store as it was |
| SubscriptionProperties.MockModeReportsMockIds | apps/console/src/lib/actions/create-subscription.ts:133-135 | in mock mode a valid fresh call reports the two generated mock ids, and its audit log records no provider request (`{ mock: true }`, line 219) |
| SubscriptionProperties.ResultShape | apps/console/src/lib/actions/create-subscription.ts:29-36 | success and error exclude each other; a failure carries no ids; a success carries a work item id; an audit log id appears exactly for a fresh completion |
| SubscriptionProperties.ProviderRequestShape | apps/console/src/lib/actions/create-subscription.ts:141-170 | the provider is called at most once, right after this call's reservation, outside mock mode, with the input's key, on a valid input; the request is one phase over [startTs, endTs] with the line items in order, proration "none" and end behaviour "cancel"; `trial_end` is set exactly for a non-zero future billing timestamp |
| SubscriptionProperties.ApplyPreservesConsistency | apps/console/src/lib/actions/create-subscription.ts:74-231 | every call keeps two facts: each work item the action wrote has its key record, and no two of them share a key |
| SubscriptionProperties.FirstMatchOfAppended | apps/console/src/lib/actions/create-subscription.ts:55-61 | a match appended after items that do not match becomes the first match |
| SubscriptionProperties.RetryReplaysFirstResult | apps/console/src/lib/actions/create-subscription.ts:50-71 | repeating a successful call on a consistent store returns the same work item and provider ids without an audit log id, touches neither the store nor the provider, and only looks up |
| SubscriptionProperties.SameKeyExecutesOnce | apps/console/src/lib/actions/create-subscription.ts:50-85 | after a successful call, any call with the same key, whatever its other fields, replays or conflicts, writes nothing and never reaches the provider |
| SubscriptionProperties.RetryAfterRejection | apps/console/src/lib/actions/create-subscription.ts:92-123 | after a rejected call, a retry with the same key behaves as if the first call had never happened |
| SubscriptionProperties.MockModeSkipsProvider | apps/console/src/lib/actions/create-subscription.ts:133-135 | in mock mode a valid fresh call succeeds with ids prefixed `sub_sched_mock_` / `sub_mock_` plus at most 8 UUID characters, and never calls the provider |
| PickPrices.SelectedIds | apps/console/src/app/workflows/create-subscription/steps/pick-prices.tsx:69 | the selected ids are exactly the price ids of the line items |
| PickPrices.NewLineItem | apps/console/src/app/workflows/create-subscription/steps/pick-prices.tsx:44-51 | a picked price becomes a line item with its id, nickname, amount, currency and interval, quantity 1 |
| PickPrices.AddPrice | apps/console/src/app/workflows/create-subscription/steps/pick-prices.tsx:40-53 | an already selected price leaves the list unchanged; any other is appended as one item with quantity 1 and the price's id, nickname, amount, currency and interval |
| PickPrices.AtLeastOne | apps/console/src/app/workflows/create-subscription/steps/pick-prices.tsx:59 | `Math.max(1, q)` is at least 1 and at least q, and is one of them |
| PickPrices.UpdateQuantity | apps/console/src/app/workflows/create-subscription/steps/pick-prices.tsx:55-63 | length and order are kept; matching items get quantity max(1, q + delta) with the other fields unchanged; other items are unchanged |
| PickPrices.RemoveItem | apps/console/src/app/workflows/create-subscription/steps/pick-prices.tsx:65-67 | the result is an order-preserving sublist holding exactly the items with a different price id |
| PickPrices.Available | apps/console/src/app/workflows/create-subscription/steps/pick-prices.tsx:148-149 | the offered prices are an order-preserving sublist of the fetched ones, holding exactly those not selected |
| PickPrices.AvailableAppend | apps/console/src/app/workflows/create-subscription/steps/pick-prices.tsx:148-149 | the available list is computed price by price: it distributes over concatenation |
| PickPrices.DecrementDisabled | apps/console/src/app/workflows/create-subscription/steps/pick-prices.tsx:103 | the decrement button is disabled at quantity 1 or less |
| PickPrices.ContinueDisabled | apps/console/src/app/workflows/create-subscription/steps/pick-prices.tsx:179 | Continue is disabled while the list is empty |
| PickPrices.AddPreservesWellFormed | apps/console/src/app/workflows/create-subscription/steps/pick-prices.tsx:40-53 | add keeps the price ids distinct and the quantities at least 1 |
| PickPrices.UpdatePreservesWellFormed | apps/console/src/app/workflows/create-subscription/steps/pick-prices.tsx:55-63 | a quantity change keeps the price ids distinct and the quantities at least 1 |
| PickPrices.RemovePreservesWellFormed | apps/console/src/app/workflows/create-subscription/steps/pick-prices.tsx:65-67 | remove keeps the price ids distinct and the quantities at least 1 |
| PickPrices.RemoveAbsent | apps/console/src/app/workflows/create-subscription/steps/pick-prices.tsx:65-67 | removing a price id that is not selected changes nothing |
| PickPrices.RemoveAppend | apps/console/src/app/workflows/create-subscription/steps/pick-prices.tsx:65-67 | removing from a concatenation removes from each part |
| PickPrices.AddThenRemove | apps/console/src/app/workflows/create-subscription/steps/pick-prices.tsx:40-67 | adding a price that was not selected and then removing it restores the original list |
| PickPrices.AddedPriceLeavesAvailable | apps/console/src/app/workflows/create-subscription/steps/pick-prices.tsx:148-149 | after an add, the available prices are the earlier ones minus the picked id, and nothing else disappears |
| PickPrices.DecrementDisabledIffNoEffect | apps/console/src/app/workflows/create-subscription/steps/pick-prices.tsx:103 | on a well-formed list, decrement is disabled (quantity <= 1) exactly when pressing it would change nothing |
| PickPrices.ContinueDisabledIffNothingSelected | apps/console/src/app/workflows/create-subscription/steps/pick-prices.tsx:179 | Continue is disabled exactly when no price is selected |
| CreateSubscriptionWizard.Update | apps/console/src/app/workflows/create-subscription/wizard.tsx:55-60 | `update(key, value)` sets exactly that field and leaves every other field unchanged |
| CreateSubscriptionWizard.FieldsDetermineState | apps/console/src/app/workflows/create-subscription/wizard.tsx:27-35 | two states that agree on every field are equal, so the per-field statement of `Update` covers the whole state |
| CreateSubscriptionWizard.GenerateIdempotencyKey | apps/console/src/app/workflows/create-subscription/wizard.tsx:37-39 | the key starts with `csub_` and holds the clock reading, an underscore and at most 8 random characters |
| CreateSubscriptionWizard.KeysFromDistinctInstantsDiffer | apps/console/src/app/workflows/create-subscription/wizard.tsx:37-39 | keys generated at different clock readings differ, whatever the random parts |
| CreateSubscriptionWizard.InitialState | apps/console/src/app/workflows/create-subscription/wizard.tsx:45-53 | no customer, no line items, empty dates, mode "now", empty billing date, and the generated key |
| CreateSubscriptionWizard.NextStep | apps/console/src/app/workflows/create-subscription/wizard.tsx:62 | `Math.min(s + 1, 4)`; from 0..4 it stays in 0..4 and never goes back |
| CreateSubscriptionWizard.BackStep | apps/console/src/app/workflows/create-subscription/wizard.tsx:63 | `Math.max(s - 1, 0)`; from 0..4 it stays in 0..4 and never goes forward |
| CreateSubscriptionWizard.StepClick | apps/console/src/app/workflows/create-subscription/wizard.tsx:82-83 | an indicator click only jumps back, to the clicked index below the current step; a disabled button (index beyond the step) has no effect |
| CreateSubscriptionWizard.StepDisabled | apps/console/src/app/workflows/create-subscription/wizard.tsx:83 | indicator button `i` is disabled when `i` is beyond the current step |
| CreateSubscriptionWizard.Navigate | apps/console/src/app/workflows/create-subscription/wizard.tsx:62-83 | one Continue, Back or indicator click, by `NextStep`, `BackStep` or `StepClick` |
| CreateSubscriptionWizard.RunStaysInRange | apps/console/src/app/workflows/create-subscription/wizard.tsx:42-83 | from a step in 0..4, any sequence of Continue, Back and indicator clicks keeps the step in 0..4 |
| CreateSubscriptionWizard.ViewOf | apps/console/src/app/workflows/create-subscription/wizard.tsx:65-67 | the success view shows exactly when a result is present and successful; otherwise the current step shows |
| CreateSubscriptionWizard.Wizard.CurrentView | apps/console/src/app/workflows/create-subscription/wizard.tsx:65-67 | the view of the wizard's current step and result, by `ViewOf` |
| CreateSubscriptionWizard.Wizard.constructor | apps/console/src/app/workflows/create-subscription/wizard.tsx:42-53 | step 0, no result, and the initial state with a key generated once |
| CreateSubscriptionWizard.Wizard.SelectCustomer | apps/console/src/app/workflows/create-subscription/wizard.tsx:103 | stores the customer and advances exactly one step; the key is kept |
| CreateSubscriptionWizard.Wizard.Edit | apps/console/src/app/workflows/create-subscription/wizard.tsx:109-129 | a step's change callback writes that one field and stays on the step; the key is kept |
| CreateSubscriptionWizard.Wizard.GoNext | apps/console/src/app/workflows/create-subscription/wizard.tsx:110 | Continue advances by `NextStep` and changes nothing else |
| CreateSubscriptionWizard.Wizard.GoBack | apps/console/src/app/workflows/create-subscription/wizard.tsx:111 | Back moves by `BackStep` and changes nothing else |
| CreateSubscriptionWizard.Wizard.ClickStep | apps/console/src/app/workflows/create-subscription/wizard.tsx:82 | an indicator click moves by `StepClick` and changes nothing else |
| CreateSubscriptionWizard.Wizard.ReceiveResult | apps/console/src/app/workflows/create-subscription/wizard.tsx:138 | stores the result; the success view shows exactly when it is successful |
| CreateSubscriptionWizard.EditsKeepKey | apps/console/src/app/workflows/create-subscription/wizard.tsx:100-140 | an update of any field other than the key leaves the key as it was |
| ReviewStep.TotalMonthly | apps/console/src/app/workflows/create-subscription/steps/review.tsx:26-29 | the left-to-right `reduce` of unit amount times quantity from 0; what it sums is `ReviewStep.TotalIsSum` |
| ReviewStep.TotalIsSum | apps/console/src/app/workflows/create-subscription/steps/review.tsx:26-29 | the reduction equals the sum of unit amount times quantity taken from the front |
| ReviewStep.SumOfAmountsAppend | apps/console/src/app/workflows/create-subscription/steps/review.tsx:26-29 | the sum over a concatenation is the sum of the parts |
| ReviewStep.TotalAppend | apps/console/src/app/workflows/create-subscription/steps/review.tsx:26-29 | the total of a concatenation is the sum of the totals |
| ReviewStep.TotalNonNegative | apps/console/src/app/workflows/create-subscription/steps/review.tsx:26-29 | an empty list totals 0; non-negative amounts and quantities give a non-negative total |
| ReviewStep.TotalAfterAddPrice | apps/console/src/app/workflows/create-subscription/steps/review.tsx:26-29 | picking a new price raises the total by its unit amount once; re-picking a selected one leaves it unchanged |
| ReviewStep.BuildInput | apps/console/src/app/workflows/create-subscription/steps/review.tsx:32-47 | no input exactly when the customer is missing or has no non-empty provider customer id; otherwise the customer's ids, the name or "Unknown", the line items, dates, mode and key unchanged, and the billing date only in "future" mode |
| ReviewStep.EmptyFutureDateIsRejected | apps/console/src/app/workflows/create-subscription/steps/review.tsx:45 | an empty future billing date reaches the server as missing and is rejected with "Billing date is required for future billing." |
| ReviewStep.NowModeDateNeverSent | apps/console/src/app/workflows/create-subscription/steps/review.tsx:45 | in "now" mode no billing date is sent, and the wizard's billing date does not affect the input |
| ReviewStep.ThrownMessage | apps/console/src/app/workflows/create-subscription/steps/review.tsx:57 | the message of a thrown `Error`, or "An unexpected error occurred" |
| ReviewStep.BackDisabled | apps/console/src/app/workflows/create-subscription/steps/review.tsx:160 | Back is disabled while executing |
| ReviewStep.ExecuteDisabled | apps/console/src/app/workflows/create-subscription/steps/review.tsx:163 | Execute is disabled while executing |
| ReviewStep.ReviewPanel.constructor | apps/console/src/app/workflows/create-subscription/steps/review.tsx:23-24 | not executing, no error, nothing delivered or sent |
| ReviewStep.ReviewPanel.Start | apps/console/src/app/workflows/create-subscription/steps/review.tsx:31-34 | returns early without a usable customer; otherwise sets the executing flag, which disables Back and Execute (lines 160, 163), and clears the error |
| ReviewStep.ReviewPanel.Finish | apps/console/src/app/workflows/create-subscription/steps/review.tsx:49-59 | a failed result shows its error or "Unknown error" and clears the executing flag; a success goes to `onResult`; a thrown value shows its message or the generic text and clears the flag |
| ReviewStep.ReviewPanel.HandleExecute | apps/console/src/app/workflows/create-subscription/steps/review.tsx:31-60 | the action is called with `BuildInput` exactly when a usable customer is present, and the panel ends in the state the call's outcome determines |
| ReviewStep.RetrySendsSameKey | apps/console/src/app/workflows/create-subscription/steps/review.tsx:46 | after any step edit, Execute sends the same idempotency key again |
| PickDates.DatesValid | apps/console/src/app/workflows/create-subscription/steps/pick-dates.tsx:25 | `isValid`: both dates entered and readable, the end strictly after the start |
| PickDates.EndDateError | apps/console/src/app/workflows/create-subscription/steps/pick-dates.tsx:61 | the end-date error: both dates entered and readable, the end not after the start |
| PickDates.PastStartNote | apps/console/src/app/workflows/create-subscription/steps/pick-dates.tsx:46 | the backdating note: a readable start date before now |
| PickDates.ContinueDisabled | apps/console/src/app/workflows/create-subscription/steps/pick-dates.tsx:82 | Continue is disabled exactly when the step is not valid |
| PickDates.ErrorIsComplementOfValidity | apps/console/src/app/workflows/create-subscription/steps/pick-dates.tsx:25-82 | with both dates entered and readable, the end-date error (line 61) shows exactly when the step is invalid and Continue disabled (line 82) |
| PickDates.UnreadableDateShowsNoError | apps/console/src/app/workflows/create-subscription/steps/pick-dates.tsx:25-61 | an unreadable date makes the step invalid without the error showing |
| PickDates.ServerPeriodImpliesStep | apps/console/src/app/workflows/create-subscription/steps/pick-dates.tsx:25 | a period of entered dates that the server accepts is accepted by the step |
| PickDates.StepValidServerRejects | apps/console/src/app/workflows/create-subscription/steps/pick-dates.tsx:25 | the converse fails: an end 500 ms after the start passes the step and is rejected by the server's whole-second comparison |
| PickDates.RoundedMonths | apps/console/src/app/workflows/create-subscription/steps/pick-dates.tsx:95 | the month count is within half a month (15.22 days) of days / 30.44 |
| PickDates.RoundedMonthsIsNearest | apps/console/src/app/workflows/create-subscription/steps/pick-dates.tsx:95 | the month count is strictly nearer than half a month, so `Math.round` meets no tie |
| PickDates.NearestMonthIsUnique | apps/console/src/app/workflows/create-subscription/steps/pick-dates.tsx:95 | any integer that near to days / 30.44 is the rounded month count |
| PickDates.DurationOf | apps/console/src/app/workflows/create-subscription/steps/pick-dates.tsx:91-101 | below 31 days the whole day count; below 12 rounded months the month count, at least 1; otherwise years and remaining months that add up to the rounded month count |
| PickDates.DurationOfAsWritten | apps/console/src/app/workflows/create-subscription/steps/pick-dates.tsx:92-100 | the duration as the source computes it, with years `Math.round(months / 12)` |
| PickDates.Counted | apps/console/src/app/workflows/create-subscription/steps/pick-dates.tsx:94-99 | a count and its unit, with "s" unless the count is 1 |
| PickDates.RenderDuration | apps/console/src/app/workflows/create-subscription/steps/pick-dates.tsx:94-100 | "N day(s)", "~N month(s)", "N year(s)" or "Ny Mm" |
| PickDates.FormatDuration | apps/console/src/app/workflows/create-subscription/steps/pick-dates.tsx:91-101 | `formatDuration` with whole years corrected to `months / 12` |
| PickDates.FormatDurationAsWritten | apps/console/src/app/workflows/create-subscription/steps/pick-dates.tsx:91-101 | `formatDuration` as written |
| PickDates.AsWrittenOverstatesYears | apps/console/src/app/workflows/create-subscription/steps/pick-dates.tsx:97 | as written, a remainder of six months or more makes years and months add up to twelve months more than the span |
| PickDates.EighteenMonthsRendering | apps/console/src/app/workflows/create-subscription/steps/pick-dates.tsx:91-101 | 548 days round to 18 months, rendered "2y 6m" as written and "1y 6m" corrected |
| PickDates.ShownDuration | apps/console/src/app/workflows/create-subscription/steps/pick-dates.tsx:69-73 | the line's text is `formatDuration` as written; it shows exactly when the step is valid, and its text equals the corrected duration text exactly when the span is not one the source overstates |
| PickDates.Overstated | apps/console/src/app/workflows/create-subscription/steps/pick-dates.tsx:95-98 | the spans the source renders wrongly: 31 days or more, at least 12 rounded months, and a remainder of six months or more |
| PickDates.RoundedYears | apps/console/src/app/workflows/create-subscription/steps/pick-dates.tsx:97 | `Math.round(months / 12)` is `months / 12` below a remainder of six, and one more from six on |
| PickDates.AsWrittenAgrees | apps/console/src/app/workflows/create-subscription/steps/pick-dates.tsx:91-101 | on every span the source does not overstate, the as-written duration equals the corrected one |
| PickDates.AsWrittenDiffers | apps/console/src/app/workflows/create-subscription/steps/pick-dates.tsx:91-101 | on every overstated span, the as-written text differs from the corrected text |
| PickDates.ShownDurationIsForward | apps/console/src/app/workflows/create-subscription/steps/pick-dates.tsx:69-73 | a shown day count is never negative |
| PickBilling.BillingValid | apps/console/src/app/workflows/create-subscription/steps/pick-billing.tsx:26-28 | `isValid`: "now" mode, or "future" mode with an entered, readable date strictly after now |
| PickBilling.FutureWarning | apps/console/src/app/workflows/create-subscription/steps/pick-billing.tsx:76-86 | the warning: "future" mode, an entered, readable date not after now |
| PickBilling.NowModeAlwaysValid | apps/console/src/app/workflows/create-subscription/steps/pick-billing.tsx:26-27 | "now" mode is valid whatever the billing date, and shows no warning |
| PickBilling.WarningIsComplementOfValidity | apps/console/src/app/workflows/create-subscription/steps/pick-billing.tsx:28-86 | in "future" mode with a readable entered date, the warning (lines 76, 86) shows exactly when the step is invalid |
| PickBilling.MissingDateShowsNoWarning | apps/console/src/app/workflows/create-subscription/steps/pick-billing.tsx:28-86 | an empty or unreadable date makes "future" mode invalid without a warning |
| PickBilling.FloorSecondsMonotone | apps/console/src/lib/actions/create-subscription.ts:88-111 | flooring to whole seconds preserves order |
| PickBilling.StepValidPassesPastRule | apps/console/src/app/workflows/create-subscription/steps/pick-billing.tsx:26-28 | at the same clock reading, a billing date the step accepts passes the server's present, readable and not-in-the-past rules |
| PickBilling.StepValidServerRejectsAfterEnd | apps/console/src/app/workflows/create-subscription/steps/pick-billing.tsx:26-28 | the step never compares with the end date: a date it accepts can be rejected by the server as after the end |
| StripePrices.MockCatalogue | apps/console/src/lib/queries/stripe-prices.ts:15-23 | the mock catalogue: seven active prices with distinct ids, each billed monthly or yearly |
| StripePrices.Matches | apps/console/src/lib/queries/stripe-prices.ts:29-33 | a price matches when its lower-cased nickname or product name, or its id, contains the lower-cased query |
| StripePrices.FilterMatching | apps/console/src/lib/queries/stripe-prices.ts:29-34 | an order-preserving sublist holding exactly the matching prices |
| StripePrices.FilterMatchingAppend | apps/console/src/lib/queries/stripe-prices.ts:29-34 | the filter works price by price: it distributes over concatenation |
| StripePrices.SearchMock | apps/console/src/lib/queries/stripe-prices.ts:26-35 | an empty query returns the whole catalogue in order; otherwise an order-preserving sublist of it, holding exactly the prices whose lower-cased nickname or product name, or whose id, contains the lower-cased query |
| StripePrices.SearchIgnoresCase | apps/console/src/lib/queries/stripe-prices.ts:28 | queries that differ only in letter case return the same list |
| StripePrices.ProductNameOf | apps/console/src/lib/queries/stripe-prices.ts:50-51 | the product's name when the product is an expanded object with a name, and "—" otherwise |
| StripePrices.FromLive | apps/console/src/lib/queries/stripe-prices.ts:52-60 | id, currency, active flag and interval are copied; the nickname defaults to the product name and the amount to 0 |
| StripePrices.MapLive | apps/console/src/lib/queries/stripe-prices.ts:47-61 | the mapping yields at most one price per record |
| StripePrices.MapLiveFromRecurring | apps/console/src/lib/queries/stripe-prices.ts:47-61 | every mapped price is `FromLive` of a recurring record of the input |
| StripePrices.MapLiveAppend | apps/console/src/lib/queries/stripe-prices.ts:47-61 | the mapping distributes over concatenation |
| StripePrices.MapLiveSingle | apps/console/src/lib/queries/stripe-prices.ts:47-61 | a non-recurring record is dropped; a recurring one contributes exactly its mapped price |
| Format.InstantOf | apps/console/src/lib/format.ts:8-14 | only the argument-to-instant conversion of lines 9 and 14 (a number is seconds × 1000, a string is parsed, a Date is its own instant); the locale formatting itself is left out; what a number means is `Format.NumberIsSeconds` |
| Format.NumberIsSeconds | apps/console/src/lib/format.ts:9 | a number is Unix seconds: it names the date at seconds × 1000, the seconds read back from that instant, and later seconds are at least a second later |
| Format.BucketOf | apps/console/src/lib/format.ts:24-35 | exactly one bucket applies, by the thresholds of one minute, one hour, one day and 30 days; the count is the floored minutes, hours or days and lies in that bucket's range |
| Format.BucketMonotone | apps/console/src/lib/format.ts:24-35 | an older date never lands in a younger bucket, and within one bucket never shows a smaller count |
| Format.Render | apps/console/src/lib/format.ts:28-34 | "just now", "Nm ago", "Nh ago", "Nd ago", or the formatted date |
| Format.FormatRelative | apps/console/src/lib/format.ts:24-35 | "just now" below a minute (future dates included), then "Nm ago", "Nh ago", "Nd ago", then the formatted date from 30 days on or for an unparsable date |
| Format.RenderDistinguishes | apps/console/src/lib/format.ts:29-33 | two counted labels are equal only for the same bucket and count |
| FeatureFlags.UseMockStripe | apps/console/src/lib/feature-flags.ts:2-6 | "true" forces mock and "false" forces live; otherwise mock exactly when the secret key is unset, empty or starts with the placeholder prefix `sk_live_or_test` |
| FeatureFlags.UseMockSalesforce | apps/console/src/lib/feature-flags.ts:8-12 | "true" forces mock and "false" forces live; otherwise mock exactly when the client id is unset, empty or the placeholder |
| FeatureFlags.Override | apps/console/src/lib/feature-flags.ts:3-4 | an override is exactly "true" or exactly "false"; any other value is none |
| FeatureFlags.StripeDefault | apps/console/src/lib/feature-flags.ts:5 | without an override, Stripe is mocked when the key is unset, empty or starts with the placeholder prefix `sk_live_or_test` |
| FeatureFlags.SalesforceDefault | apps/console/src/lib/feature-flags.ts:11 | without an override, Salesforce is mocked when the client id is unset, empty or the placeholder |
| FeatureFlags.StripeOverrideIgnoresKey | apps/console/src/lib/feature-flags.ts:3-4 | an explicit override decides whatever the secret key is |
| FeatureFlags.StripeOtherOverrideFallsThrough | apps/console/src/lib/feature-flags.ts:3-5 | a Stripe override other than exactly "true"/"false" decides as if unset |
| FeatureFlags.SalesforceOtherOverrideFallsThrough | apps/console/src/lib/feature-flags.ts:9-11 | a Salesforce override other than exactly "true"/"false" decides as if unset |
| FeatureFlags.RealStripeKeyMeansLive | apps/console/src/lib/feature-flags.ts:5 | without an override, a set, non-empty key that does not start with the placeholder prefix `sk_live_or_test` selects the live client |

## Left out

- React rendering, CSS, the price-search debounce and the step transitions: the model keeps only
  the predicates, list operations and state updates.
- The customer step (`pick-customer.tsx`) and the success view (`success.tsx`): UI around data
  fetched elsewhere. The wizard's `SelectCustomer` takes the chosen customer as given.
- The database (Prisma) and its failures. The store is three abstract collections with the four
  operations: find, insert-if-absent, delete and append.
  - The reservation's bare `catch` turns every database error into the duplicate message; only
    the unique-key failure is modelled.
  - A failing work-item or audit-log write after a successful provider call is an unhandled
    path of the source, and is not modelled.
- The session (`requireSession`), `randomUUID`, `Date.now()` and `Math.random()`: these are inputs
  (`Env` fields and parameters of the key generator).
- CreateSubscription.Validate: the action reads the clock twice, for the key's expiry and for
  `nowTs`. The model uses one clock reading for both. The client and server checks are related
  at the same instant.
- Format.InstantOf: a number argument is whole seconds within the `Date` range. A NaN, a number beyond ±8.64e12 seconds (an Invalid Date) and fractional seconds (whose fractional milliseconds `Date` truncates) are not modelled.
- Date-string parsing (`new Date`): an abstract function to `Option<int>` milliseconds. The
  client and the server are assumed to parse alike.
- `Intl`/`toLocaleString` formatting (`formatDate`, `formatDateTime`, `formatCurrency`): locale
  calls. `formatRelative` takes the formatted date as a parameter.
- Text.ToLower lower-cases ASCII letters only; full Unicode case mapping is not modelled.
- The floating-point constant 30.44: months are computed exactly as rational rounding of
  100 · days / 3044.
- Concurrency: calls are modelled one after another. The atomic insert-if-absent of the key is
  the only serialisation point.
- The live branch of `searchStripePrices`: the provider request (lookup keys, limit 50) is
  network I/O. Only the mapping of returned records is modelled.
- StripePrices.ProductNameOf: a `null` product (where `typeof null === "object"` would throw) is
  not a case of the model; the product is an expanded object or an id.
- CreateSubscription.Trace logs the provider call for every valid live-mode call. The source can
  throw while creating the client (`getStripeClient`, `create-subscription.ts:138-139`) before any
  request is sent. The result of such a throw is modelled, through the thrown outcome, but the
  log still shows a call.
- The work-item lookup `findFirst` has no ordering clause; the model takes the first match in
  insertion order.
- The work item's JSON round trip (`JSON.parse(JSON.stringify(...))`): the payload is kept as a
  record, and an absent billing date is `None`, where the source stores `null`.

## Findings

| source | as written | input that shows it | evidently intended | confidence | as-written member | corrected member |
|---|---|---|---|---|---|---|
| apps/console/src/app/workflows/create-subscription/steps/pick-dates.tsx:97 | `years = Math.round(months / 12)` rounds half a year up, while `months % 12` still shows the remaining months | a 548-day period: 18 months, shown as "2y 6m" | whole years `Math.floor(months / 12)`: "1y 6m" | not executed | PickDates.AsWrittenOverstatesYears | PickDates.DurationOf |
