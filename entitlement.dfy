/** The entitlement evaluator: tier access, industry defaults, `isModuleEnabled`,
    `canEnableModule`, `getModuleConfig`, `getDefaultModulesForIndustry` and the navigation
    filter (lib/modules.ts). */
module Entitlement {
  import opened Wrappers
  import opened AppTypes
  import opened ModuleTypes
  import opened BusinessTypes
  import opened ModuleRegistry
  import opened Seqs

  // ---------------------------------------------------------------------------
  // Tier access
  // ---------------------------------------------------------------------------

  /** The plan-to-tiers table written out inside `hasTierAccess`. */
  function PlanTiers(p: Plan): seq<Tier> {
    match p
    case FreePlan => [CoreTier, FreeTier]
    case ProPlan => [CoreTier, FreeTier, ProTier]
    case BusinessPlan => [CoreTier, FreeTier, ProTier, BusinessTier]
    case EnterprisePlan => [CoreTier, FreeTier, ProTier, BusinessTier, EnterpriseTier]
  }

  /** `hasTierAccess`: the plan's tier list includes the tier. */
  function HasTierAccess(p: Plan, t: Tier): bool {
    t in PlanTiers(p)
  }

  /** The table inside `hasTierAccess` is the exported `PLAN_INCLUDES_TIERS`. */
  lemma PlanTiersIsPlanIncludesTiers(p: Plan)
    ensures PlanTiers(p) == PlanIncludesTiers(p)
  {
  }

  /** Tier access is cumulative: a plan unlocks exactly the tiers up to its own. Hence every
      plan unlocks core, free unlocks exactly core and free, enterprise unlocks all five, and
      a higher plan unlocks everything a lower one does. */
  lemma HasTierAccessCumulative(p: Plan, t: Tier)
    ensures HasTierAccess(p, t) <==> TierRank(t) <= TierRank(PlanTier(p))
    ensures HasTierAccess(p, CoreTier)
    ensures HasTierAccess(FreePlan, t) <==> t == CoreTier || t == FreeTier
    ensures HasTierAccess(EnterprisePlan, t)
    ensures forall q :: TierRank(PlanTier(p)) <= TierRank(PlanTier(q)) && HasTierAccess(p, t) ==>
              HasTierAccess(q, t)
  {
  }

  // ---------------------------------------------------------------------------
  // Industry defaults and the evaluator
  // ---------------------------------------------------------------------------

  /** `isDefaultEnabled`: whether a module starts enabled for an industry. */
  function IsDefaultEnabled(id: ModuleId, industry: Industry): bool {
    if !Registered(id) then false
    else
      match DefaultRuleOf(id)
      case AllIndustries => true
      case NoIndustries => false
      case OnlyIndustries(l) => industry in l
  }

  /** The stored `enabled` flag of a module when the stored settings carry one
      (`moduleConfig && 'enabled' in moduleConfig`), and the industry default otherwise. */
  function StoredOrDefault(b: Business, id: ModuleId): bool {
    match StoredSettings(b.config, id)
    case Some(s) => if s.enabled.Some? then s.enabled.value else IsDefaultEnabled(id, b.industry)
    case None => IsDefaultEnabled(id, b.industry)
  }

  /** `isModuleEnabled` for a business that is present: unknown module, core tier, bypass,
      tier gate, stored flag, industry default, in that order. */
  function IsEnabledFor(b: Business, id: ModuleId): bool {
    if !Registered(id) then false
    else if ModuleTier(id) == CoreTier then true
    else if Bypass(b.config) then StoredOrDefault(b, id)
    else if !HasTierAccess(EffectivePlan(b.config), ModuleTier(id)) then false
    else StoredOrDefault(b, id)
  }

  /** `isModuleEnabled`. `isDevelopment` stands for `process.env.NODE_ENV === 'development'`,
      which decides the answer when there is no business. */
  function IsModuleEnabled(b: Option<Business>, id: ModuleId, isDevelopment: bool): bool {
    match b
    case None => isDevelopment
    case Some(biz) => IsEnabledFor(biz, id)
  }

  /** With no business the development flag decides, for every module, core ones included:
      outside development even the core modules are off. */
  lemma NoBusinessFollowsDevelopmentFlag(id: ModuleId, isDevelopment: bool)
    ensures IsModuleEnabled(None, id, isDevelopment) == isDevelopment
    ensures !IsModuleEnabled(None, Dashboard, false)
  {
  }

  /** Otherwise an identifier without a registry entry is disabled, and a core module is enabled,
      whatever the subscription and stored settings say. */
  lemma UnknownThenCore(b: Business, id: ModuleId, isDevelopment: bool)
    ensures !Registered(id) ==> !IsModuleEnabled(Some(b), id, isDevelopment)
    ensures Registered(id) && ModuleTier(id) == CoreTier ==> IsModuleEnabled(Some(b), id, isDevelopment)
    ensures IsModuleEnabled(Some(b), Chat, isDevelopment) == false
  {
  }

  /** Without bypass, a module whose tier the plan does not unlock is disabled even when its
      stored flag says enabled. */
  lemma TierGateOverridesStoredFlag(b: Business, id: ModuleId)
    requires Registered(id) && !Bypass(b.config)
    requires !HasTierAccess(EffectivePlan(b.config), ModuleTier(id))
    ensures !IsEnabledFor(b, id)
  {
  }

  /** On the bypass path and on the tier-passed path, a stored `enabled` field decides, and
      without one the industry default does. */
  lemma StoredFlagThenDefault(b: Business, id: ModuleId)
    requires Registered(id) && ModuleTier(id) != CoreTier
    requires Bypass(b.config) || HasTierAccess(EffectivePlan(b.config), ModuleTier(id))
    ensures StoredSettings(b.config, id).Some? && StoredSettings(b.config, id).value.enabled.Some? ==>
              IsEnabledFor(b, id) == StoredSettings(b.config, id).value.enabled.value
    ensures (StoredSettings(b.config, id).None? || StoredSettings(b.config, id).value.enabled.None?) ==>
              IsEnabledFor(b, id) == IsDefaultEnabled(id, b.industry)
  {
  }

  /** The industry default: all gives true, none gives false, a list gives membership. */
  lemma DefaultRuleMeaning(id: ModuleId, industry: Industry)
    requires Registered(id)
    ensures DefaultRuleOf(id).AllIndustries? ==> IsDefaultEnabled(id, industry)
    ensures DefaultRuleOf(id).NoIndustries? ==> !IsDefaultEnabled(id, industry)
    ensures DefaultRuleOf(id).OnlyIndustries? ==>
              (IsDefaultEnabled(id, industry) <==> industry in DefaultRuleOf(id).industries)
  {
  }

  /** The whole decision list in one closed form, with tier access by rank. */
  lemma IsEnabledForClosedForm(b: Business, id: ModuleId)
    ensures IsEnabledFor(b, id) <==>
      Registered(id) &&
      (ModuleTier(id) == CoreTier ||
       ((Bypass(b.config) || TierRank(ModuleTier(id)) <= TierRank(PlanTier(EffectivePlan(b.config)))) &&
        StoredOrDefault(b, id)))
  {
    if Registered(id) {
      HasTierAccessCumulative(EffectivePlan(b.config), ModuleTier(id));
    }
  }

  /** A business with the same industry and stored modules but another subscription. */
  function WithSubscription(b: Business, s: Option<SubscriptionConfig>): Business {
    b.(config := b.config.(subscription := s))
  }

  /** The bypass path never consults the plan. */
  lemma BypassIgnoresPlan(b: Business, id: ModuleId, s: SubscriptionConfig)
    requires Bypass(b.config) && s.bypassRestrictions == Some(true)
    ensures IsEnabledFor(WithSubscription(b, Some(s)), id) == IsEnabledFor(b, id)
  {
    assert StoredSettings(WithSubscription(b, Some(s)).config, id) == StoredSettings(b.config, id);
  }

  /** Moving to a plan that is at least as high never disables a module; only a downgrade can. */
  lemma UpgradeNeverDisables(b: Business, id: ModuleId, s: SubscriptionConfig)
    requires !Bypass(b.config) && s.bypassRestrictions != Some(true)
    requires s.plan.Some? &&
             TierRank(PlanTier(EffectivePlan(b.config))) <= TierRank(PlanTier(s.plan.value))
    requires IsEnabledFor(b, id)
    ensures IsEnabledFor(WithSubscription(b, Some(s)), id)
  {
    var b' := WithSubscription(b, Some(s));
    assert StoredSettings(b'.config, id) == StoredSettings(b.config, id);
    IsEnabledForClosedForm(b, id);
    IsEnabledForClosedForm(b', id);
  }

  /** A grocery business on the free plan with nothing stored has stock (grocery is in its
      default list, tier free is unlocked) but not reports (tier pro is not). */
  lemma GroceryFreeScenario(b: Business)
    requires b.industry == Grocery && b.config.modules == Some(map[])
    requires b.config.subscription == Some(SubscriptionConfig(Some(FreePlan), Active, None, None, None))
    ensures IsEnabledFor(b, Stock)
    ensures !IsEnabledFor(b, Reports)
  {
  }

  /** A stored `orders.enabled = false` on the pro plan disables orders although its tier is
      unlocked and its industry default is on. */
  lemma StoredOrdersOffScenario(b: Business)
    requires b.industry == Distributor && !Bypass(b.config) && EffectivePlan(b.config) == ProPlan
    requires b.config.modules.Some? && "orders" in b.config.modules.value
    requires b.config.modules.value["orders"].enabled == Some(false)
    ensures IsDefaultEnabled(Orders, b.industry)
    ensures !IsEnabledFor(b, Orders)
  {
  }

  // ---------------------------------------------------------------------------
  // canEnableModule
  // ---------------------------------------------------------------------------

  /** `{ canEnable, reason? }`. */
  datatype CanEnableResult = CanEnableResult(canEnable: bool, reason: Option<string>)

  /** `tier.toUpperCase()`. */
  function TierUpper(t: Tier): string {
    match t
    case CoreTier => "CORE"
    case FreeTier => "FREE"
    case ProTier => "PRO"
    case BusinessTier => "BUSINESS"
    case EnterpriseTier => "ENTERPRISE"
  }

  function TierReason(t: Tier): string {
    "Requiere plan " + TierUpper(t)
  }

  /** `dep?.name || depId`. */
  function DisplayName(id: ModuleId): string {
    match Registry(id)
    case Some(m) => if m.name != "" then m.name else ModuleKey(id)
    case None => ModuleKey(id)
  }

  function DependencyReason(d: ModuleId): string {
    "Requiere módulo \"" + DisplayName(d) + "\" activo"
  }

  /** `deps[i]` is the first dependency, in declared order, that is not enabled. */
  predicate FirstUnmet(b: Business, deps: seq<ModuleId>, i: int) {
    0 <= i < |deps| && !IsEnabledFor(b, deps[i]) && forall j :: 0 <= j < i ==> IsEnabledFor(b, deps[j])
  }

  /** The dependency scan of `canEnableModule`: the dependencies in declared order, stopping
      at the first one that is not enabled. */
  method CheckDependencies(b: Business, deps: seq<ModuleId>) returns (r: CanEnableResult)
    ensures r.canEnable <==> forall d :: d in deps ==> IsEnabledFor(b, d)
    ensures r.canEnable ==> r.reason.None?
    ensures !r.canEnable ==> exists i :: FirstUnmet(b, deps, i) && r.reason == Some(DependencyReason(deps[i]))
  {
    // The scan needs only the answers of `IsEnabledFor`, not how they are reached.
    hide IsEnabledFor, DependencyReason;
    for i := 0 to |deps|
      invariant forall j :: 0 <= j < i ==> IsEnabledFor(b, deps[j])
    {
      // The business is present here, so `isModuleEnabled` is `IsEnabledFor`.
      if !IsEnabledFor(b, deps[i]) {
        assert FirstUnmet(b, deps, i);
        return CanEnableResult(false, Some(DependencyReason(deps[i])));
      }
    }
    return CanEnableResult(true, None);
  }

  /** `canEnableModule`: unknown module, core tier, tier check, then dependencies in declared
      order; the first dependency that is not enabled is named in the reason. */
  method CanEnableModule(b: Business, id: ModuleId) returns (r: CanEnableResult)
    ensures !Registered(id) ==> r == CanEnableResult(false, Some("Módulo no existe"))
    ensures Registered(id) && ModuleTier(id) == CoreTier ==> r == CanEnableResult(true, None)
    ensures Registered(id) && ModuleTier(id) != CoreTier &&
            !HasTierAccess(EffectivePlan(b.config), ModuleTier(id)) ==>
              r == CanEnableResult(false, Some(TierReason(ModuleTier(id))))
    ensures Registered(id) && ModuleTier(id) != CoreTier &&
            HasTierAccess(EffectivePlan(b.config), ModuleTier(id)) ==>
              && (r.canEnable <==> forall d :: d in Dependencies(id) ==> IsEnabledFor(b, d))
              && (r.canEnable ==> r.reason.None?)
              && (!r.canEnable ==> exists i :: FirstUnmet(b, Dependencies(id), i) &&
                                               r.reason == Some(DependencyReason(Dependencies(id)[i])))
  {
    if !Registered(id) {
      return CanEnableResult(false, Some("Módulo no existe"));
    }
    var m := Entry(id);
    if m.tier == CoreTier {
      return CanEnableResult(true, None);
    }
    var plan := EffectivePlan(b.config);
    if !HasTierAccess(plan, m.tier) {
      return CanEnableResult(false, Some(TierReason(m.tier)));
    }
    r := CheckDependencies(b, m.dependencies);
  }

  // ---------------------------------------------------------------------------
  // getModuleConfig and getDefaultModulesForIndustry
  // ---------------------------------------------------------------------------

  /** `getModuleConfig`: the stored settings, passed through without defaulting. */
  function GetModuleConfig(b: Option<Business>, id: ModuleId): (r: Option<ModuleSettings>)
    ensures b.None? ==> r.None?
    ensures r.Some? <==> b.Some? && b.value.config.modules.Some? && ModuleKey(id) in b.value.config.modules.value
    ensures r.Some? ==> r.value == b.value.config.modules.value[ModuleKey(id)]
  {
    match b
    case None => None
    case Some(biz) => StoredSettings(biz.config, id)
  }

  /** The filter inside `getDefaultModulesForIndustry`. */
  predicate OnByDefault(m: ModuleMetadata, industry: Industry) {
    if m.tier == CoreTier then true
    else
      match m.defaultEnabled
      case AllIndustries => true
      case NoIndustries => false
      case OnlyIndustries(l) => industry in l
  }

  function IdOf(m: ModuleMetadata): ModuleId {
    m.id
  }

  function Ids(ms: seq<ModuleMetadata>): (r: seq<ModuleId>)
    ensures |r| == |ms| && forall i :: 0 <= i < |ms| ==> r[i] == ms[i].id
  {
    Map(ms, IdOf)
  }

  /** `getDefaultModulesForIndustry`. */
  function DefaultModulesForIndustry(industry: Industry): seq<ModuleId> {
    Ids(Filter(AllModules(), (m: ModuleMetadata) => OnByDefault(m, industry)))
  }

  lemma OnByDefaultMeaning(m: ModuleMetadata, industry: Industry)
    requires Registry(m.id) == Some(m)
    ensures OnByDefault(m, industry) <==> m.tier == CoreTier || IsDefaultEnabled(m.id, industry)
  {
  }

  /** Only core modules and modules on by default for the industry are listed. */
  lemma DefaultModulesForIndustrySound(industry: Industry, id: ModuleId)
    requires id in DefaultModulesForIndustry(industry)
    ensures Registered(id) && (ModuleTier(id) == CoreTier || IsDefaultEnabled(id, industry))
  {
    var ms := Filter(AllModules(), (m: ModuleMetadata) => OnByDefault(m, industry));
    var r := Ids(ms);
    var i :| 0 <= i < |r| && r[i] == id;
    AllModulesAreRegistry(ms[i]);
    OnByDefaultMeaning(ms[i], industry);
  }

  /** Every core module and every module on by default for the industry is listed. */
  lemma DefaultModulesForIndustryComplete(industry: Industry, id: ModuleId)
    requires Registered(id) && (ModuleTier(id) == CoreTier || IsDefaultEnabled(id, industry))
    ensures id in DefaultModulesForIndustry(industry)
  {
    var p := (m: ModuleMetadata) => OnByDefault(m, industry);
    var ms := Filter(AllModules(), p);
    var e := Entry(id);
    AllModulesAreRegistry(e);
    OnByDefaultMeaning(e, industry);
    assert e in AllModules() && p(e);
    var i :| 0 <= i < |ms| && ms[i] == e;
    assert Ids(ms)[i] == id;
  }

  /** `getDefaultModulesForIndustry` lists the core modules and the modules on by default for
      the industry, and nothing else. */
  lemma DefaultModulesForIndustryMembers(industry: Industry, id: ModuleId)
    ensures id in DefaultModulesForIndustry(industry) <==>
              Registered(id) && (ModuleTier(id) == CoreTier || IsDefaultEnabled(id, industry))
  {
    if id in DefaultModulesForIndustry(industry) {
      DefaultModulesForIndustrySound(industry, id);
    }
    if Registered(id) && (ModuleTier(id) == CoreTier || IsDefaultEnabled(id, industry)) {
      DefaultModulesForIndustryComplete(industry, id);
    }
  }

  /** `getDefaultModulesForIndustry` keeps the registry's order and lists no identifier
      twice. */
  lemma DefaultModulesForIndustryOrdered(industry: Industry)
    ensures IsSubsequence(DefaultModulesForIndustry(industry), Ids(AllModules()))
    ensures NoDuplicates(DefaultModulesForIndustry(industry))
  {
    var ms := Filter(AllModules(), (m: ModuleMetadata) => OnByDefault(m, industry));
    assert DefaultModulesForIndustry(industry) == Ids(ms) == Map(ms, IdOf);
    assert Ids(AllModules()) == Map(AllModules(), IdOf);
    // The rest follows from the contracts of the filter, the map and the registry.
    hide *;
    MapSubsequence(ms, AllModules(), IdOf);
    AllModuleIdsDistinct();
    SubsequenceNoDuplicates(Ids(ms), Ids(AllModules()));
  }

  /** The identifiers of `getAllModules`, in order, repeat none. */
  lemma AllModuleIdsDistinct()
    ensures NoDuplicates(Ids(AllModules()))
  {
    AllModulesDistinct();
  }

  // ---------------------------------------------------------------------------
  // Navigation
  // ---------------------------------------------------------------------------

  /** `NAVIGATION_MODULES`. */
  const NavigationIds: seq<ModuleId> :=
    [Dashboard, Products, Customers, Orders, Deliveries, Payments, Settings]

  /** `NAVIGATION_MODULES.map((id) => MODULES[id])`: every navigation identifier is registered,
      so each lookup gives the identifier's entry. */
  function NavigationEntries(): (r: seq<ModuleMetadata>)
    ensures |r| == |NavigationIds| && forall i :: 0 <= i < |r| ==> Registry(NavigationIds[i]) == Some(r[i])
  {
    Map(NavigationIds, Entry)
  }

  /** `getNavigationModules`: the navigation entries, in their fixed order, that are enabled. */
  function NavigationModules(b: Option<Business>, isDevelopment: bool): (r: seq<ModuleMetadata>)
    ensures forall m :: m in r <==> m in NavigationEntries() && IsModuleEnabled(b, m.id, isDevelopment)
    ensures IsSubsequence(r, NavigationEntries())
  {
    Filter(NavigationEntries(), (m: ModuleMetadata) => IsModuleEnabled(b, m.id, isDevelopment))
  }

  /** With no business the navigation is empty outside development and complete inside it. */
  lemma NavigationWithoutBusiness()
    ensures NavigationModules(None, false) == []
    ensures NavigationModules(None, true) == NavigationEntries()
  {
    FilterNone(NavigationEntries(), (m: ModuleMetadata) => IsModuleEnabled(None, m.id, false));
    FilterAll(NavigationEntries(), (m: ModuleMetadata) => IsModuleEnabled(None, m.id, true));
  }

  /** A business carrying `DEV_SUBSCRIPTION` bypasses every restriction: each registered
      module that is not core follows its stored flag or its industry default, whatever its
      tier. */
  lemma DevSubscriptionFollowsStored(b: Business, id: ModuleId)
    requires b.config.subscription == Some(DevSubscription)
    requires Registered(id) && !IsCoreId(id)
    ensures Bypass(b.config)
    ensures IsEnabledFor(b, id) == StoredOrDefault(b, id)
  {
    RegistryWellFormed(id);
  }

  /** Every core module is enabled for every business. */
  lemma CoreAlwaysEnabled(b: Business, id: ModuleId)
    requires IsCoreId(id)
    ensures Registered(id) && IsEnabledFor(b, id)
  {
    RegistryWellFormed(id);
  }

  /** Where a core module sits in `NAVIGATION_MODULES`. */
  function CoreNavigationIndex(id: ModuleId): (k: nat)
    requires IsCoreId(id)
    ensures k < |NavigationIds| && NavigationIds[k] == id
  {
    match id
    case Dashboard => 0
    case Products => 1
    case Customers => 2
    case _ => 6
  }

  /** The four core modules are navigation entries. */
  lemma NavigationListsCore(id: ModuleId)
    requires IsCoreId(id)
    ensures Registered(id) && Entry(id) in NavigationEntries() && Entry(id).id == id
  {
    var n := NavigationEntries();
    var k := CoreNavigationIndex(id);
    // The registry's contracts suffice.
    hide *;
    assert Registry(id) == Some(n[k]);
  }

  /** With a business, the four core entries always show. */
  lemma NavigationShowsCore(b: Business, isDevelopment: bool, id: ModuleId)
    requires IsCoreId(id)
    ensures Entry(id) in NavigationModules(Some(b), isDevelopment)
  {
    CoreAlwaysEnabled(b, id);
    NavigationListsCore(id);
  }
}
