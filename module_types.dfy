/** Tiers, plans, module identifiers, module metadata and the stored per-module settings
    (types/modules.types.ts). */
module ModuleTypes {
  import opened Wrappers
  import opened AppTypes

  /** `ModuleTier`, low to high. */
  datatype Tier = CoreTier | FreeTier | ProTier | BusinessTier | EnterpriseTier

  /** Position of a tier in the hierarchy core < free < pro < business < enterprise. */
  function TierRank(t: Tier): (r: nat)
    ensures r <= 4
    ensures r == 0 <==> t == CoreTier
    ensures r == 4 <==> t == EnterpriseTier
  {
    match t
    case CoreTier => 0
    case FreeTier => 1
    case ProTier => 2
    case BusinessTier => 3
    case EnterpriseTier => 4
  }

  /** Distinct tiers have distinct ranks, so the rank order is the order of the tiers. */
  lemma TierRankInjective(t: Tier, u: Tier)
    requires TierRank(t) == TierRank(u)
    ensures t == u
  {
  }

  /** `SubscriptionPlan`: there is no plan for the core tier. */
  datatype Plan = FreePlan | ProPlan | BusinessPlan | EnterprisePlan

  /** The tier a plan is named after. */
  function PlanTier(p: Plan): (t: Tier)
    ensures t != CoreTier
  {
    match p
    case FreePlan => FreeTier
    case ProPlan => ProTier
    case BusinessPlan => BusinessTier
    case EnterprisePlan => EnterpriseTier
  }

  /** Five tiers, four plans: each non-core tier is the tier of exactly one plan, and core of none. */
  lemma PlansNameNonCoreTiers(t: Tier)
    ensures (exists p :: PlanTier(p) == t) <==> t != CoreTier
    ensures forall p, q :: PlanTier(p) == PlanTier(q) ==> p == q
  {
    if t != CoreTier {
      var p := match t
        case FreeTier => FreePlan
        case ProTier => ProPlan
        case BusinessTier => BusinessPlan
        case _ => EnterprisePlan;
      assert PlanTier(p) == t;
    }
  }

  /** `PLAN_INCLUDES_TIERS`: every plan includes all tiers below it. */
  function PlanIncludesTiers(p: Plan): seq<Tier> {
    match p
    case FreePlan => [CoreTier, FreeTier]
    case ProPlan => [CoreTier, FreeTier, ProTier]
    case BusinessPlan => [CoreTier, FreeTier, ProTier, BusinessTier]
    case EnterprisePlan => [CoreTier, FreeTier, ProTier, BusinessTier, EnterpriseTier]
  }

  /** The table is cumulative: a plan includes a tier exactly when the tier is not above the plan's own. */
  lemma PlanIncludesTiersCumulative(p: Plan, t: Tier)
    ensures t in PlanIncludesTiers(p) <==> TierRank(t) <= TierRank(PlanTier(p))
  {
  }

  /** free ⊆ pro ⊆ business ⊆ enterprise, every plan includes core, enterprise includes every tier. */
  lemma PlanIncludesTiersNested(t: Tier)
    ensures t in PlanIncludesTiers(FreePlan) ==> t in PlanIncludesTiers(ProPlan)
    ensures t in PlanIncludesTiers(ProPlan) ==> t in PlanIncludesTiers(BusinessPlan)
    ensures t in PlanIncludesTiers(BusinessPlan) ==> t in PlanIncludesTiers(EnterprisePlan)
    ensures forall p :: CoreTier in PlanIncludesTiers(p)
    ensures t in PlanIncludesTiers(EnterprisePlan)
    ensures ProTier !in PlanIncludesTiers(FreePlan) && BusinessTier !in PlanIncludesTiers(ProPlan)
    ensures EnterpriseTier !in PlanIncludesTiers(BusinessPlan)
  {
  }

  /** `ModuleCategory`: informational only. */
  datatype Category = CoreCategory | Commerce | Inventory | Logistics | Analytics | Ai | Integration

  /** `ModuleId`: every identifier the type admits, including three that have no registry entry. */
  datatype ModuleId =
    | Dashboard | Products | Customers | Settings
    | Stock | Orders | Payments | Chat
    | Deliveries | Variants | TieredPricing | Reports | RecurringOrders | TelegramBot
    | RouteOptimization | GooglePlaces | InventoryAi | MultiWarehouse | AdvancedAnalytics | VoiceInput
    | ApiAccess | WhiteLabel | TeamManagement | AuditLog

  /** The identifiers the type groups as core (always active). */
  predicate IsCoreId(id: ModuleId) {
    id == Dashboard || id == Products || id == Customers || id == Settings
  }

  /** The string an identifier is written as, which is also its key in stored configuration. */
  function ModuleKey(id: ModuleId): string {
    match id
    case Dashboard => "dashboard"
    case Products => "products"
    case Customers => "customers"
    case Settings => "settings"
    case Stock => "stock"
    case Orders => "orders"
    case Payments => "payments"
    case Chat => "chat"
    case Deliveries => "deliveries"
    case Variants => "variants"
    case TieredPricing => "tiered_pricing"
    case Reports => "reports"
    case RecurringOrders => "recurring_orders"
    case TelegramBot => "telegram_bot"
    case RouteOptimization => "route_optimization"
    case GooglePlaces => "google_places"
    case InventoryAi => "inventory_ai"
    case MultiWarehouse => "multi_warehouse"
    case AdvancedAnalytics => "advanced_analytics"
    case VoiceInput => "voice_input"
    case ApiAccess => "api_access"
    case WhiteLabel => "white_label"
    case TeamManagement => "team_management"
    case AuditLog => "audit_log"
  }

  /** Reads a stored key back as an identifier; keys of no identifier give None. The keys are
      told apart by length first, then compared in full. */
  function ParseModuleKey(k: string): Option<ModuleId> {
    match |k|
    case 4 =>
      if k == "chat" then Some(Chat)
      else None
    case 5 =>
      if k == "stock" then Some(Stock)
      else None
    case 6 =>
      if k == "orders" then Some(Orders)
      else None
    case 7 =>
      if k == "reports" then Some(Reports)
      else None
    case 8 =>
      if k == "products" then Some(Products)
      else if k == "settings" then Some(Settings)
      else if k == "payments" then Some(Payments)
      else if k == "variants" then Some(Variants)
      else None
    case 9 =>
      if k == "dashboard" then Some(Dashboard)
      else if k == "customers" then Some(Customers)
      else if k == "audit_log" then Some(AuditLog)
      else None
    case 10 =>
      if k == "deliveries" then Some(Deliveries)
      else if k == "api_access" then Some(ApiAccess)
      else None
    case 11 =>
      if k == "voice_input" then Some(VoiceInput)
      else if k == "white_label" then Some(WhiteLabel)
      else None
    case 12 =>
      if k == "telegram_bot" then Some(TelegramBot)
      else if k == "inventory_ai" then Some(InventoryAi)
      else None
    case 13 =>
      if k == "google_places" then Some(GooglePlaces)
      else None
    case 14 =>
      if k == "tiered_pricing" then Some(TieredPricing)
      else None
    case 15 =>
      if k == "multi_warehouse" then Some(MultiWarehouse)
      else if k == "team_management" then Some(TeamManagement)
      else None
    case 16 =>
      if k == "recurring_orders" then Some(RecurringOrders)
      else None
    case 18 =>
      if k == "route_optimization" then Some(RouteOptimization)
      else if k == "advanced_analytics" then Some(AdvancedAnalytics)
      else None
    case _ => None
  }

  /** `ParseModuleKey` inverts `ModuleKey`. */
  lemma ParseModuleKeyRoundTrip(id: ModuleId)
    ensures ParseModuleKey(ModuleKey(id)) == Some(id)
  {
  }

  /** Two distinct identifiers have distinct keys. */
  lemma ModuleKeyDistinct(a: ModuleId, b: ModuleId)
    requires a != b
    ensures ModuleKey(a) != ModuleKey(b)
  {
    ParseModuleKeyRoundTrip(a);
    ParseModuleKeyRoundTrip(b);
  }

  /** Distinct identifiers are stored under distinct keys. */
  lemma ModuleKeyInjective()
    ensures forall a, b :: ModuleKey(a) == ModuleKey(b) ==> a == b
  {
    forall a, b | ModuleKey(a) == ModuleKey(b) ensures a == b {
      ParseModuleKeyRoundTrip(a);
      ParseModuleKeyRoundTrip(b);
    }
  }

  /** `defaultEnabled`: all industries, none, or an explicit list. */
  datatype DefaultRule = AllIndustries | NoIndustries | OnlyIndustries(industries: seq<Industry>)

  /** `ModuleMetadata` without its icon component and its description text, which is the
      registry's `ModuleDescription` column. An absent `dependencies` or `requiredBy` list is
      the empty sequence; `comingSoon` is set by no module and is left out. */
  datatype ModuleMetadata = ModuleMetadata(
    id: ModuleId,
    name: string,
    tier: Tier,
    category: Category,
    defaultEnabled: DefaultRule,
    canDisable: bool,
    dependencies: seq<ModuleId>,
    requiredBy: seq<ModuleId>,
    badge: Option<string>)

  /** One stored per-module settings object: its `enabled` field, which the stored document
      may lack, and its other fields by name. */
  datatype ModuleSettings = ModuleSettings(enabled: Option<bool>, fields: map<string, Json>)

  /** `business.config.modules`: settings objects by stored key. Keys need not be module keys. */
  type ModulesConfig = map<string, ModuleSettings>

  /** The optional fields, besides `enabled`, of each module's settings shape; None for the
      identifiers that have no key in `ModulesConfig`. */
  function ConfigFields(id: ModuleId): Option<set<string>> {
    match id
    case Dashboard => None
    case Products => None
    case Customers => None
    case Settings => None
    case Stock => Some({"lowStockThreshold", "trackByVariant", "showProjections"})
    case Orders => Some({"requireCustomer", "allowPartialPayment", "defaultStatus"})
    case Payments => Some({"enableCurrentAccount", "autoReminders", "reminderDays"})
    case Chat => Some({"showSuggestions", "enableHistory", "maxHistoryDays"})
    case Deliveries => Some({"type", "requireSchedule", "maxStopsPerRoute"})
    case Variants => Some({"attributes", "showMatrix"})
    case TieredPricing => Some({"showInCatalog", "applyAutomatically"})
    case Reports => Some({"emailFrequency", "emailRecipients"})
    case RecurringOrders => Some({"maxTemplatesPerCustomer", "allowAutoConfirm"})
    case TelegramBot => Some({"botToken", "allowCustomerBot", "notifyOnOrders", "notifyOnPayments", "notifyOnLowStock"})
    case RouteOptimization => Some({"provider", "optimizeFor", "avoidTolls"})
    case GooglePlaces => Some({"searchRadius", "autoSuggestAddress"})
    case InventoryAi => Some({"predictionDays", "autoReorderSuggestions"})
    case MultiWarehouse => Some({"defaultWarehouseId", "allowTransfers"})
    case AdvancedAnalytics => Some({"retentionDays", "enableExport"})
    case VoiceInput => Some({"provider", "language", "autoSend"})
    case ApiAccess => Some({"rateLimit", "allowedOrigins"})
    case WhiteLabel => Some({"customLogo", "customColors", "customDomain"})
    case TeamManagement => Some({"maxUsers", "customRoles"})
    case AuditLog => Some({"retentionDays", "logLevel"})
  }

  /** The keys the `ModulesConfig` type declares. */
  const ModulesConfigKeys: set<string> := {
    "stock", "orders", "payments", "chat",
    "deliveries", "variants", "tiered_pricing", "reports", "recurring_orders", "telegram_bot",
    "route_optimization", "google_places", "inventory_ai", "multi_warehouse", "advanced_analytics", "voice_input",
    "api_access", "white_label", "team_management", "audit_log"}

  /** `ModulesConfig` has a key for every non-core identifier and none for the four core ones. */
  lemma {:induction false} ModulesConfigKeysNonCore(id: ModuleId)
    ensures ModuleKey(id) in ModulesConfigKeys <==> !IsCoreId(id)
    ensures ConfigFields(id).Some? <==> !IsCoreId(id)
  {
  }

  /** A settings object has the shape `ModulesConfig` gives module `id`: `enabled` is present
      (`BaseModuleConfig`) and every other field is one the shape declares. */
  predicate ConformsTo(id: ModuleId, s: ModuleSettings) {
    ConfigFields(id).Some? && s.enabled.Some? && s.fields.Keys <= ConfigFields(id).value
  }

  /** Every entry of a modules map is under a declared key and has that key's shape. */
  predicate WellTypedModulesConfig(c: ModulesConfig) {
    forall k :: k in c ==> ParseModuleKey(k).Some? && ConformsTo(ParseModuleKey(k).value, c[k])
  }

  /** `SubscriptionConfig.status`. */
  datatype SubscriptionStatus = Active | Trial | Expired | Cancelled

  /** `SubscriptionConfig`. The plan is optional because the stored document may lack it. */
  datatype SubscriptionConfig = SubscriptionConfig(
    plan: Option<Plan>,
    status: SubscriptionStatus,
    trialEndsAt: Option<string>,
    currentPeriodEndsAt: Option<string>,
    bypassRestrictions: Option<bool>)

  /** `DEV_SUBSCRIPTION`: enterprise, active, restrictions bypassed. */
  const DevSubscription: SubscriptionConfig :=
    SubscriptionConfig(Some(EnterprisePlan), Active, None, None, Some(true))

  /** `DEV_SUBSCRIPTION` is on the highest plan and bypasses the restrictions. */
  lemma DevSubscriptionIsUnrestricted()
    ensures DevSubscription.plan == Some(EnterprisePlan)
    ensures DevSubscription.bypassRestrictions == Some(true)
    ensures forall t :: t in PlanIncludesTiers(DevSubscription.plan.value)
  {
    forall t ensures t in PlanIncludesTiers(DevSubscription.plan.value) {
      PlanIncludesTiersNested(t);
    }
  }
}
