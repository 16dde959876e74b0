/** The business record and its configuration document (types/app.types.ts), with the
    `subscription` field the entitlement rules read. */
module BusinessTypes {
  import opened Wrappers
  import opened AppTypes
  import opened ModuleTypes

  /** `BusinessConfig`: the opaque configuration document, read and written whole.
      `modules` and `subscription` are the keys the core interprets; `rest` holds every other
      top-level key (such as `contact`) by name. A `null` document is the empty one. */
  datatype BusinessConfig = BusinessConfig(
    modules: Option<ModulesConfig>,
    subscription: Option<SubscriptionConfig>,
    rest: map<string, Json>)

  const EmptyConfig: BusinessConfig := BusinessConfig(None, None, map[])

  /** `Business` without its timestamps. */
  datatype Business = Business(id: string, name: string, industry: Industry, config: BusinessConfig)

  /** `business.config?.modules?.[moduleId]`: the stored settings of one module, if any. */
  function StoredSettings(c: BusinessConfig, id: ModuleId): (r: Option<ModuleSettings>)
    ensures r.Some? <==> c.modules.Some? && ModuleKey(id) in c.modules.value
    ensures r.Some? ==> r.value == c.modules.value[ModuleKey(id)]
  {
    match c.modules
    case None => None
    case Some(m) => if ModuleKey(id) in m then Some(m[ModuleKey(id)]) else None
  }

  /** `subscription?.plan || 'free'`: a missing subscription or plan counts as free. */
  function EffectivePlan(c: BusinessConfig): (p: Plan)
    ensures c.subscription.None? ==> p == FreePlan
    ensures c.subscription.Some? && c.subscription.value.plan.Some? ==> p == c.subscription.value.plan.value
    ensures c.subscription.Some? && c.subscription.value.plan.None? ==> p == FreePlan
  {
    match c.subscription
    case None => FreePlan
    case Some(s) => s.plan.GetOr(FreePlan)
  }

  /** `subscription?.bypassRestrictions` is truthy. */
  predicate Bypass(c: BusinessConfig) {
    c.subscription.Some? && c.subscription.value.bypassRestrictions == Some(true)
  }
}
