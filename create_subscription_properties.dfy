/** What the create-subscription action promises, proved about its specification
    (`Decide`, `Apply`, `Trace` in module CreateSubscription). */
module SubscriptionProperties {
  import opened Wrappers
  import opened Text
  import FeatureFlags
  import opened CreateSubscription

  // ---------------------------------------------------------------------------------------
  // Replay and conflict

  /** A retry whose key record exists and whose work item is found returns the stored ids, writes
      nothing, reaches neither the validation nor the provider, and reports no audit log id. */
  lemma ReplayReturnsStoredIds(st: StoreState, input: Input, env: Env)
    requires ReplayLookup(st, input).Some?
    ensures var w := st.workItems[ReplayLookup(st, input).value];
            var s := Apply(st, input, env);
            && s.state == st
            && s.result == Result(true, None, Some(w.id), w.payload.stripeScheduleId,
                                  w.payload.stripeSubscriptionId, None)
            && Trace(st, input, env) == [FindKey(input.idempotencyKey),
                                         FindWorkItem(input.customerId, input.idempotencyKey)]
  {
  }

  /** The replay lookup only happens while the key record exists: a matching work item without one
      is never replayed, and the work items are not even read. */
  lemma ReplayNeedsKeyRecord(st: StoreState, input: Input, env: Env)
    requires input.idempotencyKey !in st.keys
    ensures !Decide(st, input, env).Replay? && !Decide(st, input, env).Conflict?
    ensures Trace(st, input, env)[..2] == [FindKey(input.idempotencyKey), ReserveKey(input.idempotencyKey)]
  {
  }

  /** A key record without a matching work item (a call in flight, or one for another customer)
      is a conflict: the store is untouched and the other call's key is not released. The record's
      expiry time plays no part. */
  lemma ConflictChangesNothing(st: StoreState, input: Input, env: Env)
    requires input.idempotencyKey in st.keys && ReplayLookup(st, input).None?
    ensures Apply(st, input, env) == Step(Failure(DuplicateMsg), st)
    ensures Trace(st, input, env) == [FindKey(input.idempotencyKey),
                                      FindWorkItem(input.customerId, input.idempotencyKey),
                                      ReserveKey(input.idempotencyKey)]
  {
  }

  // ---------------------------------------------------------------------------------------
  // Rejection and completion

  /** A call that reserved its key and then failed (validation or provider error) leaves the
      store exactly as it found it: the key is released and nothing is written. */
  lemma RejectionLeavesStoreUnchanged(st: StoreState, input: Input, env: Env)
    requires input.idempotencyKey !in st.keys
    requires !Apply(st, input, env).result.success
    ensures Decide(st, input, env).Rejected?
    ensures Apply(st, input, env).state == st
    ensures Apply(st, input, env).result == Failure(Decide(st, input, env).message)
    ensures var t := Trace(st, input, env);
            t[|t| - 1] == DeleteKey(input.idempotencyKey)
            && forall i :: 0 <= i < |t| ==> !t[i].CreateWorkItem? && !t[i].CreateAuditLog?
  {
    var key := input.idempotencyKey;
    assert st.keys[key := KeyRecord(Scope, env.nowMs + KeyTtlMs)] - {key} == st.keys;
  }

  /** A fresh successful call keeps its key reserved and appends exactly one completed work item
      and one audit log that point at each other and at the provider's ids; it deletes no key. */
  lemma CompletionRecordsOnce(st: StoreState, input: Input, env: Env)
    requires input.idempotencyKey !in st.keys
    requires Apply(st, input, env).result.success
    ensures var s := Apply(st, input, env);
            var n := |st.workItems|;
            var m := |st.auditLogs|;
            && s.state.keys == st.keys[input.idempotencyKey := KeyRecord(Scope, env.nowMs + KeyTtlMs)]
            && |s.state.workItems| == n + 1 && s.state.workItems[..n] == st.workItems
            && |s.state.auditLogs| == m + 1 && s.state.auditLogs[..m] == st.auditLogs
            && var w := s.state.workItems[n];
               var a := s.state.auditLogs[m];
               && Some(w.id) == s.result.workItemId && Some(a.id) == s.result.auditLogId
               && w.itemType == Scope && w.status == Completed
               && w.customerId == input.customerId && w.createdById == env.userId
               && w.payload.idempotencyKey == Some(input.idempotencyKey)
               && w.payload.stripeScheduleId == s.result.stripeScheduleId
               && w.payload.stripeSubscriptionId == s.result.stripeSubscriptionId
               && a.action == "subscription.created" && a.targetType == "stripe_subscription_schedule"
               && Some(a.targetId) == s.result.stripeScheduleId
               && a.actorUserId == env.userId && a.requestId == env.requestId
               && a.customerId == input.customerId && a.payload.workItemId == w.id
               && (a.payload.scheduleParams.None? <==> FeatureFlags.UseMockStripe(env.flags))
    ensures var t := Trace(st, input, env);
            forall i :: 0 <= i < |t| ==> !t[i].DeleteKey?
  {
    var key := input.idempotencyKey;
    match Decide(st, input, env)
    case Done(sched, sub, sent) =>
      var s := Apply(st, input, env);
      assert s.state.workItems[..|st.workItems|] == st.workItems;
      assert s.state.auditLogs[..|st.auditLogs|] == st.auditLogs;
  }

  /** `success` and `error` exclude each other; a failure carries no ids; only a fresh completion
      reports an audit log id. */
  lemma ResultShape(st: StoreState, input: Input, env: Env)
    ensures var r := Apply(st, input, env).result;
            && (r.success <==> r.error.None?)
            && (r.success ==> r.workItemId.Some?)
            && (!r.success ==> r.workItemId.None? && r.stripeScheduleId.None?
                               && r.stripeSubscriptionId.None? && r.auditLogId.None?)
            && (r.auditLogId.Some? <==> Decide(st, input, env).Done?)
  {
  }

  // ---------------------------------------------------------------------------------------
  // The provider request

  /** The provider is called only after this call reserved the key, with that key, outside mock
      mode, once the input is valid, and with a one-phase schedule over the validated period whose
      items are the line items in order; the trial end is set exactly when a non-zero billing
      timestamp was validated. */
  lemma ProviderRequestShape(st: StoreState, input: Input, env: Env, i: nat)
    requires i < |Trace(st, input, env)| && Trace(st, input, env)[i].CallProvider?
    ensures var t := Trace(st, input, env);
            && input.idempotencyKey !in st.keys && !FeatureFlags.UseMockStripe(env.flags)
            && i == 2 && t[i - 1] == ReserveKey(input.idempotencyKey)
            && t[i].key == input.idempotencyKey
            && forall j :: 0 <= j < |t| && j != i ==> !t[j].CallProvider?
    ensures var p := Trace(st, input, env)[i].params;
            match Validate(input, env.nowMs, env.parse)
            case Invalid(_) => false
            case Valid(startTs, endTs, billTs) =>
              && p.customer == input.stripeCustomerId && p.startDate == startTs
              && p.endBehavior == "cancel" && |p.phases| == 1
              && p.phases[0].startDate == startTs && p.phases[0].endDate == endTs
              && p.phases[0].prorationBehavior == "none"
              && |p.phases[0].items| == |input.lineItems|
              && (forall j :: 0 <= j < |input.lineItems| ==>
                    p.phases[0].items[j].price == input.lineItems[j].priceId
                    && p.phases[0].items[j].quantity == input.lineItems[j].quantity)
              && (p.phases[0].trialEnd.Some? <==> input.billingMode == Future && billTs.value != 0)
              && (p.phases[0].trialEnd.Some? ==> p.phases[0].trialEnd == billTs)
  {
    assert Lookups(st, input) == [FindKey(input.idempotencyKey)];
  }

  /** What the provider's answer turns into, for a fresh valid call outside mock mode: a created
      schedule's id and subscription (the string, the object's id, or "") become the result's ids
      and are recorded with the request; a thrown `Error` gives its message, anything else thrown
      gives "Stripe API error", and either throw leaves the store as it was. */
  lemma ProviderOutcomeDecidesResult(st: StoreState, input: Input, env: Env)
    requires input.idempotencyKey !in st.keys
    requires Validate(input, env.nowMs, env.parse).Valid?
    requires !FeatureFlags.UseMockStripe(env.flags)
    ensures var c := Validate(input, env.nowMs, env.parse);
            var p := BuildParams(input, c.startTs, c.endTs, c.billTs);
            var s := Apply(st, input, env);
            match env.stripe(p, input.idempotencyKey)
            case Created(id, sub) =>
              && s.result == Result(true, None, Some(env.newWorkItemId), Some(id), Some(SubscriptionIdOf(sub)),
                                    Some(env.newAuditLogId))
              && s.state.workItems == st.workItems + [NewWorkItem(input, env, id, SubscriptionIdOf(sub))]
              && s.state.auditLogs == st.auditLogs + [NewAuditLog(input, env, id, SubscriptionIdOf(sub), Some(p))]
            case Threw(ErrorObject(m)) => s.result == Failure(m) && s.state == st
            case Threw(OtherThrown) => s.result == Failure("Stripe API error") && s.state == st
  {
    if !Apply(st, input, env).result.success {
      RejectionLeavesStoreUnchanged(st, input, env);
    }
  }

  /** In mock mode a valid fresh call reports the two generated mock ids, and the audit log records
      no provider request. */
  lemma MockModeReportsMockIds(st: StoreState, input: Input, env: Env)
    requires input.idempotencyKey !in st.keys
    requires Validate(input, env.nowMs, env.parse).Valid?
    requires FeatureFlags.UseMockStripe(env.flags)
    ensures var s := Apply(st, input, env);
            && s.result.stripeScheduleId == Some(MockScheduleId(env))
            && s.result.stripeSubscriptionId == Some(MockSubscriptionId(env))
            && s.state.auditLogs == st.auditLogs + [NewAuditLog(input, env, MockScheduleId(env), MockSubscriptionId(env), None)]
  {
  }

  // ---------------------------------------------------------------------------------------
  // Idempotency

  /** The consistency the store keeps: every work item this action wrote has its key record, and
      no two such work items share a key. */
  predicate Keyed(w: WorkItem) {
    w.itemType == Scope && w.payload.idempotencyKey.Some?
  }

  ghost predicate Consistent(st: StoreState) {
    && (forall i :: 0 <= i < |st.workItems| && Keyed(st.workItems[i]) ==>
          st.workItems[i].payload.idempotencyKey.value in st.keys)
    && (forall i, j :: 0 <= i < j < |st.workItems| && Keyed(st.workItems[i]) && Keyed(st.workItems[j]) ==>
          st.workItems[i].payload.idempotencyKey != st.workItems[j].payload.idempotencyKey)
  }

  /** Every call keeps the store consistent. */
  lemma ApplyPreservesConsistency(st: StoreState, input: Input, env: Env)
    requires Consistent(st)
    ensures Consistent(Apply(st, input, env).state)
  {
    var key := input.idempotencyKey;
    match Decide(st, input, env)
    case Replay(_) =>
    case Conflict =>
    case Rejected(_, _) =>
      assert st.keys[key := KeyRecord(Scope, env.nowMs + KeyTtlMs)] - {key} == st.keys;
    case Done(sched, sub, sent) =>
      var s := Apply(st, input, env).state;
      var n := |st.workItems|;
      assert forall i :: 0 <= i < n ==> s.workItems[i] == st.workItems[i];
      forall i | 0 <= i < n && Keyed(st.workItems[i])
        ensures st.workItems[i].payload.idempotencyKey != Some(key)
      {
        assert st.workItems[i].payload.idempotencyKey.value in st.keys;
      }
  }

  /** When nothing earlier matches and the last item does, the first match is the last item. */
  lemma FirstMatchOfAppended(items: seq<WorkItem>, w: WorkItem, customerId: string, key: string)
    requires forall j :: 0 <= j < |items| ==> !IsReplayMatch(items[j], customerId, key)
    requires IsReplayMatch(w, customerId, key)
    ensures FirstMatch(items + [w], customerId, key) == Some(|items|)
  {
    var all := items + [w];
    assert all[|items|] == w;
    assert forall j :: 0 <= j < |items| ==> all[j] == items[j];
  }

  /** Repeating a successful call replays it: the same work item, schedule and subscription ids,
      no provider call and no new rows (the replayed result carries no audit log id). */
  lemma RetryReplaysFirstResult(st: StoreState, input: Input, env1: Env, env2: Env)
    requires Consistent(st)
    requires Apply(st, input, env1).result.success
    ensures var s1 := Apply(st, input, env1);
            var s2 := Apply(s1.state, input, env2);
            && s2.state == s1.state
            && s2.result.success
            && s2.result.workItemId == s1.result.workItemId
            && s2.result.stripeScheduleId == s1.result.stripeScheduleId
            && s2.result.stripeSubscriptionId == s1.result.stripeSubscriptionId
            && s2.result.auditLogId.None?
            && Trace(s1.state, input, env2) == [FindKey(input.idempotencyKey),
                                                FindWorkItem(input.customerId, input.idempotencyKey)]
  {
    var key := input.idempotencyKey;
    match Decide(st, input, env1)
    case Replay(_) =>
    case Done(sched, sub, sent) =>
      var w := NewWorkItem(input, env1, sched, sub);
      forall j | 0 <= j < |st.workItems|
        ensures !IsReplayMatch(st.workItems[j], input.customerId, key)
      {
        if IsReplayMatch(st.workItems[j], input.customerId, key) {
          assert Keyed(st.workItems[j]);
        }
      }
      FirstMatchOfAppended(st.workItems, w, input.customerId, key);
  }

  /** After a call that did not fail, any later call with the same key, whatever its other fields,
      is answered from the store: it writes nothing and never reaches the provider. */
  lemma SameKeyExecutesOnce(st: StoreState, input1: Input, input2: Input, env1: Env, env2: Env)
    requires Apply(st, input1, env1).result.success
    requires input2.idempotencyKey == input1.idempotencyKey
    ensures var s1 := Apply(st, input1, env1).state;
            && Apply(s1, input2, env2).state == s1
            && (Decide(s1, input2, env2).Replay? || Decide(s1, input2, env2).Conflict?)
            && forall e :: e in Trace(s1, input2, env2) ==> !e.CallProvider?
  {
  }

  /** A rejected call leaves no mark: a retry with the same key is decided afresh, by its own
      input alone, as if the first call had never happened. */
  lemma RetryAfterRejection(st: StoreState, input1: Input, input2: Input, env1: Env, env2: Env)
    requires input1.idempotencyKey !in st.keys
    requires !Apply(st, input1, env1).result.success
    requires input2.idempotencyKey == input1.idempotencyKey
    ensures Apply(Apply(st, input1, env1).state, input2, env2) == Apply(st, input2, env2)
    ensures !Decide(st, input2, env2).Replay? && !Decide(st, input2, env2).Conflict?
  {
    RejectionLeavesStoreUnchanged(st, input1, env1);
  }

  // ---------------------------------------------------------------------------------------
  // Mock mode

  /** In mock mode a valid fresh call completes with generated mock ids and never calls the provider. */
  lemma MockModeSkipsProvider(st: StoreState, input: Input, env: Env)
    requires input.idempotencyKey !in st.keys
    requires Validate(input, env.nowMs, env.parse).Valid?
    requires FeatureFlags.UseMockStripe(env.flags)
    ensures var r := Apply(st, input, env).result;
            && r.success
            && StartsWith(r.stripeScheduleId.value, "sub_sched_mock_")
            && StartsWith(r.stripeSubscriptionId.value, "sub_mock_")
            && |r.stripeScheduleId.value| <= |"sub_sched_mock_"| + 8
            && |r.stripeSubscriptionId.value| <= |"sub_mock_"| + 8
    ensures forall e :: e in Trace(st, input, env) ==> !e.CallProvider?
  {
    var sched := MockScheduleId(env);
    assert sched[..|"sub_sched_mock_"|] == "sub_sched_mock_";
    assert MockSubscriptionId(env)[..|"sub_mock_"|] == "sub_mock_";
  }
}
