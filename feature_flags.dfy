/** The two feature-flag getters (apps/console/src/lib/feature-flags.ts): whether the Stripe and
    Salesforce clients are replaced by their deterministic mocks. The process environment is a map
    from variable name to value; a variable that is absent is `undefined`. */
module FeatureFlags {
  import opened Wrappers
  import opened Text

  type Environment = map<string, string>

  const UseMockStripeVar := "USE_MOCK_STRIPE"
  const StripeSecretKeyVar := "STRIPE_SECRET_KEY"
  const UseMockSalesforceVar := "USE_MOCK_SALESFORCE"
  const SalesforceClientIdVar := "SF_CLIENT_ID"

  /** The placeholder prefix of the sample Stripe key. */
  const StripePlaceholderPrefix := "sk_live_or_test"
  /** The placeholder Salesforce client id of the sample configuration. */
  const SalesforcePlaceholderId := "connected_app_consumer_key"

  function Lookup(env: Environment, name: string): Option<string> {
    if name in env then Some(env[name]) else None
  }

  /** The explicit override a variable states: exactly "true" or exactly "false"; anything else is none. */
  function Override(env: Environment, name: string): Option<bool> {
    match Lookup(env, name)
    case Some("true") => Some(true)
    case Some("false") => Some(false)
    case _ => None
  }

  /** A JavaScript string is falsy exactly when it is undefined or empty. */
  predicate Falsy(v: Option<string>) {
    v.None? || v.value == ""
  }

  /** The rule used when no explicit override is set: no usable Stripe key means mock. */
  predicate StripeDefault(env: Environment) {
    var key := Lookup(env, StripeSecretKeyVar);
    Falsy(key) || StartsWith(key.value, StripePlaceholderPrefix)
  }

  /** The rule used when no explicit override is set: no usable Salesforce client id means mock. */
  predicate SalesforceDefault(env: Environment) {
    var id := Lookup(env, SalesforceClientIdVar);
    Falsy(id) || id.value == SalesforcePlaceholderId
  }

  /** `flags.useMockStripe`. */
  function UseMockStripe(env: Environment): (mock: bool)
    ensures Lookup(env, UseMockStripeVar) == Some("true") ==> mock
    ensures Lookup(env, UseMockStripeVar) == Some("false") ==> !mock
    ensures Override(env, UseMockStripeVar).None? ==> (mock <==> StripeDefault(env))
  {
    if Lookup(env, UseMockStripeVar) == Some("true") then true
    else if Lookup(env, UseMockStripeVar) == Some("false") then false
    else StripeDefault(env)
  }

  /** `flags.useMockSalesforce`. */
  function UseMockSalesforce(env: Environment): (mock: bool)
    ensures Lookup(env, UseMockSalesforceVar) == Some("true") ==> mock
    ensures Lookup(env, UseMockSalesforceVar) == Some("false") ==> !mock
    ensures Override(env, UseMockSalesforceVar).None? ==> (mock <==> SalesforceDefault(env))
  {
    if Lookup(env, UseMockSalesforceVar) == Some("true") then true
    else if Lookup(env, UseMockSalesforceVar) == Some("false") then false
    else SalesforceDefault(env)
  }

  /** An override forces the Stripe decision whatever the secret key is. */
  lemma StripeOverrideIgnoresKey(env: Environment, v: string, key: Option<string>)
    requires v == "true" || v == "false"
    ensures var env' := if key.Some? then env[StripeSecretKeyVar := key.value] else env - {StripeSecretKeyVar};
            UseMockStripe(env'[UseMockStripeVar := v]) == (v == "true")
  {
  }

  /** A value other than exactly "true" or "false" (say "TRUE" or "1") is no override at all:
      the decision is the same as with the variable unset. */
  lemma StripeOtherOverrideFallsThrough(env: Environment, v: string)
    requires v != "true" && v != "false"
    ensures UseMockStripe(env[UseMockStripeVar := v]) == UseMockStripe(env - {UseMockStripeVar})
  {
    assert Lookup(env[UseMockStripeVar := v], StripeSecretKeyVar) == Lookup(env - {UseMockStripeVar}, StripeSecretKeyVar);
  }

  /** The same for Salesforce. */
  lemma SalesforceOtherOverrideFallsThrough(env: Environment, v: string)
    requires v != "true" && v != "false"
    ensures UseMockSalesforce(env[UseMockSalesforceVar := v]) == UseMockSalesforce(env - {UseMockSalesforceVar})
  {
    assert Lookup(env[UseMockSalesforceVar := v], SalesforceClientIdVar) == Lookup(env - {UseMockSalesforceVar}, SalesforceClientIdVar);
  }

  /** Without an override, a real secret key (set, non-empty, and not starting with the placeholder prefix `sk_live_or_test`) selects the live client. */
  lemma RealStripeKeyMeansLive(env: Environment)
    requires UseMockStripeVar !in env
    requires StripeSecretKeyVar in env && env[StripeSecretKeyVar] != ""
    requires !StartsWith(env[StripeSecretKeyVar], StripePlaceholderPrefix)
    ensures !UseMockStripe(env)
  {
  }
}
