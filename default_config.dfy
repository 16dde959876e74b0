/** `generateDefaultModulesConfig`: the initial `modules` map of a new business (lib/modules.ts). */
module DefaultConfig {
  import opened Wrappers
  import opened AppTypes
  import opened ModuleTypes
  import opened ModuleRegistry
  import opened Entitlement
  import opened Seqs

  // The settings objects the `switch` of `generateDefaultModulesConfig` writes, one per case.

  function StockSeed(industry: Industry): ModuleSettings {
    ModuleSettings(Some(true), map[
      "lowStockThreshold" := JNum(10),
      "trackByVariant" := JBool(industry == Retail),
      "showProjections" := JBool(industry == Distributor)])
  }

  function OrdersSeed(industry: Industry): ModuleSettings {
    ModuleSettings(Some(true), map[
      "requireCustomer" := JBool(industry == Distributor),
      "allowPartialPayment" := JBool(true),
      "defaultStatus" := JStr("pending")])
  }

  function PaymentsSeed(industry: Industry): ModuleSettings {
    ModuleSettings(Some(true), map[
      "enableCurrentAccount" := JBool(true),
      "autoReminders" := JBool(industry == Distributor),
      "reminderDays" := JList([JNum(7), JNum(14), JNum(30)])])
  }

  const DeliveriesSeed := ModuleSettings(Some(true), map[
    "type" := JStr("own_fleet"),
    "requireSchedule" := JBool(false)])

  const VariantsSeed := ModuleSettings(Some(true), map[
    "attributes" := JList([JStr("size"), JStr("color")]),
    "showMatrix" := JBool(true)])

  const TieredPricingSeed := ModuleSettings(Some(true), map[
    "showInCatalog" := JBool(true),
    "applyAutomatically" := JBool(true)])

  const RecurringOrdersSeed := ModuleSettings(Some(true), map[
    "maxTemplatesPerCustomer" := JNum(5),
    "allowAutoConfirm" := JBool(false)])

  /** The settings the `switch` writes for a module that is on by default. The `default:`
      branch writes nothing, which is None here. */
  function Seed(id: ModuleId, industry: Industry): Option<ModuleSettings> {
    match id
    case Stock => Some(StockSeed(industry))
    case Orders => Some(OrdersSeed(industry))
    case Payments => Some(PaymentsSeed(industry))
    case Deliveries => Some(DeliveriesSeed)
    case Variants => Some(VariantsSeed)
    case TieredPricing => Some(TieredPricingSeed)
    case RecurringOrders => Some(RecurringOrdersSeed)
    case _ => None
  }

  /** What the loop writes for one module: the module's settings under its key when the
      module is on by default for the industry and the `switch` has a case for it. */
  function Emission(m: ModuleMetadata, industry: Industry): Option<(string, ModuleSettings)> {
    if IsDefaultEnabled(m.id, industry) then
      match Seed(m.id, industry)
      case Some(s) => Some((ModuleKey(m.id), s))
      case None => None
    else None
  }

  function EmissionFor(industry: Industry): ModuleMetadata -> Option<(string, ModuleSettings)> {
    m => Emission(m, industry)
  }

  /** The function `generateDefaultModulesConfig` computes. */
  function DefaultModulesConfig(industry: Industry): ModulesConfig {
    WriteAll(ToggleableModules(), EmissionFor(industry))
  }

  /** The `for (const module of toggleableModules)` loop of `generateDefaultModulesConfig`:
      visits the modules in order and writes the settings of each one that is on by default
      for the industry. */
  method WriteDefaults(ms: seq<ModuleMetadata>, industry: Industry) returns (config: ModulesConfig)
    ensures config == WriteAll(ms, EmissionFor(industry))
  {
    config := map[];
    assert ms[..0] == [] && WriteAll<ModuleMetadata, string, ModuleSettings>([], EmissionFor(industry)) == map[];
    // Each step needs only what one module emits; the tables behind it stay out of view.
    hide *;
    for i := 0 to |ms|
      invariant config == WriteAll(ms[..i], EmissionFor(industry))
    {
      var m := ms[i];
      EmissionStep(m, industry);
      if IsDefaultEnabled(m.id, industry) {
        match Seed(m.id, industry) {
          case Some(s) => config := config[ModuleKey(m.id) := s];
          case None =>
        }
      }
      WriteAllStep(ms, i, EmissionFor(industry));
    }
    assert ms[..|ms|] == ms;
  }

  /** One visit of the loop: what `EmissionFor` gives a module is what the `if` and the
      `switch` write for it. */
  lemma EmissionStep(m: ModuleMetadata, industry: Industry)
    ensures IsDefaultEnabled(m.id, industry) && Seed(m.id, industry).Some? ==>
              EmissionFor(industry)(m) == Some((ModuleKey(m.id), Seed(m.id, industry).value))
    ensures !(IsDefaultEnabled(m.id, industry) && Seed(m.id, industry).Some?) ==> EmissionFor(industry)(m).None?
  {
    assert EmissionFor(industry)(m) == Emission(m, industry);
  }

  /** `generateDefaultModulesConfig`. */
  method GenerateDefaultModulesConfig(industry: Industry) returns (config: ModulesConfig)
    ensures config == DefaultModulesConfig(industry)
  {
    var toggleable := ToggleableModules();
    config := WriteDefaults(toggleable, industry);
  }

  /** The `default:` branch is never taken: every toggleable module that is on by default for
      some industry has a case of its own. */
  lemma SwitchCoversDefaults(id: ModuleId, industry: Industry)
    requires Toggleable(id) && IsDefaultEnabled(id, industry)
    ensures Seed(id, industry).Some?
  {
  }

  /** Every settings object the `switch` writes has `enabled: true`. */
  lemma SeedEnabled(id: ModuleId, industry: Industry)
    ensures Seed(id, industry).Some? ==> Seed(id, industry).value.enabled == Some(true)
  {
  }

  /** A module emits under its own key, and only what the `switch` gives it. */
  lemma EmissionMeaning(m: ModuleMetadata, industry: Industry)
    ensures Emission(m, industry).Some? <==> IsDefaultEnabled(m.id, industry) && Seed(m.id, industry).Some?
    ensures Emission(m, industry).Some? ==>
              Emission(m, industry).value.0 == ModuleKey(m.id) &&
              Some(Emission(m, industry).value.1) == Seed(m.id, industry)
  {
    if IsDefaultEnabled(m.id, industry) {
      match Seed(m.id, industry)
      case Some(s) => assert Emission(m, industry) == Some((ModuleKey(m.id), s));
      case None => assert Emission(m, industry).None?;
    } else {
      assert Emission(m, industry).None?;
    }
  }

  /** Distinct modules never write under the same key. */
  lemma EmissionKeyIsId(m: ModuleMetadata, industry: Industry, id: ModuleId)
    requires Emission(m, industry).Some? && Emission(m, industry).value.0 == ModuleKey(id)
    ensures m.id == id && Seed(id, industry) == Some(Emission(m, industry).value.1)
  {
    EmissionMeaning(m, industry);
    ParseModuleKeyRoundTrip(m.id);
    ParseModuleKeyRoundTrip(id);
  }

  /** A key in the output belongs to a toggleable module on by default for the industry. */
  lemma DefaultModulesConfigKeySound(industry: Industry, id: ModuleId)
    requires ModuleKey(id) in DefaultModulesConfig(industry)
    ensures Toggleable(id) && IsDefaultEnabled(id, industry)
  {
    var ms, f := ToggleableModules(), EmissionFor(industry);
    WriteAllKeys(ms, f, ModuleKey(id));
    var m :| m in ms && f(m).Some? && f(m).value.0 == ModuleKey(id);
    EmissionKeyIsId(m, industry, id);
    EmissionMeaning(m, industry);
    CoreAndToggleableModules(m);
  }

  /** Every toggleable module on by default for the industry has a key in the output. */
  lemma DefaultModulesConfigKeyComplete(industry: Industry, id: ModuleId)
    requires Toggleable(id) && IsDefaultEnabled(id, industry)
    ensures ModuleKey(id) in DefaultModulesConfig(industry)
  {
    var ms, f := ToggleableModules(), EmissionFor(industry);
    CoreAndToggleableModules(Entry(id));
    SwitchCoversDefaults(id, industry);
    EmissionMeaning(Entry(id), industry);
    assert Entry(id) in ms && f(Entry(id)).Some? && f(Entry(id)).value.0 == ModuleKey(id);
    WriteAllKeys(ms, f, ModuleKey(id));
  }

  /** The value under a module's key is the settings the `switch` gives that module. */
  lemma DefaultModulesConfigValue(industry: Industry, id: ModuleId)
    requires ModuleKey(id) in DefaultModulesConfig(industry)
    ensures Seed(id, industry) == Some(DefaultModulesConfig(industry)[ModuleKey(id)])
  {
    var ms, f := ToggleableModules(), EmissionFor(industry);
    WriteAllKeys(ms, f, ModuleKey(id));
    var m :| m in ms && f(m).Some? && f(m).value.0 == ModuleKey(id);
    EmissionKeyIsId(m, industry, id);
    forall x | x in ms && f(x).Some? && f(x).value.0 == ModuleKey(id)
      ensures f(x).value.1 == Seed(id, industry).value
    {
      EmissionKeyIsId(x, industry, id);
    }
    WriteAllValue(ms, f, ModuleKey(id), Seed(id, industry).value);
  }

  /** The output has a key exactly for each toggleable module that is on by default for the
      industry (absence means disabled), with that module's settings under it. */
  lemma DefaultModulesConfigEntry(industry: Industry, id: ModuleId)
    ensures ModuleKey(id) in DefaultModulesConfig(industry) <==>
              Toggleable(id) && IsDefaultEnabled(id, industry)
    ensures ModuleKey(id) in DefaultModulesConfig(industry) ==>
              Seed(id, industry) == Some(DefaultModulesConfig(industry)[ModuleKey(id)])
  {
    if ModuleKey(id) in DefaultModulesConfig(industry) {
      DefaultModulesConfigKeySound(industry, id);
      DefaultModulesConfigValue(industry, id);
    }
    if Toggleable(id) && IsDefaultEnabled(id, industry) {
      DefaultModulesConfigKeyComplete(industry, id);
    }
  }

  /** Every key of the output is the key of a toggleable module on by default for the
      industry, and every entry is enabled. */
  lemma DefaultModulesConfigKeys(industry: Industry, k: string)
    requires k in DefaultModulesConfig(industry)
    ensures exists id :: ModuleKey(id) == k && Toggleable(id) && IsDefaultEnabled(id, industry)
    ensures DefaultModulesConfig(industry)[k].enabled == Some(true)
  {
    var ms, f := ToggleableModules(), EmissionFor(industry);
    WriteAllKeys(ms, f, k);
    var m :| m in ms && f(m).Some? && f(m).value.0 == k;
    EmissionMeaning(m, industry);
    DefaultModulesConfigEntry(industry, m.id);
    SeedEnabled(m.id, industry);
  }

  /** Every entry the generator writes has the shape `ModulesConfig` declares for its key. */
  lemma DefaultModulesConfigWellTyped(industry: Industry)
    ensures WellTypedModulesConfig(DefaultModulesConfig(industry))
  {
    var d := DefaultModulesConfig(industry);
    forall k | k in d ensures ParseModuleKey(k).Some? && ConformsTo(ParseModuleKey(k).value, d[k]) {
      DefaultModulesConfigKeys(industry, k);
      var id :| ModuleKey(id) == k && Toggleable(id) && IsDefaultEnabled(id, industry);
      ParseModuleKeyRoundTrip(id);
      DefaultModulesConfigEntry(industry, id);
      SeedConforms(id, industry);
    }
  }

  /** The settings of every `switch` case fit the module's declared shape. */
  lemma SeedConforms(id: ModuleId, industry: Industry)
    requires Seed(id, industry).Some?
    ensures ConformsTo(id, Seed(id, industry).value)
  {
  }

  /** The generator and `getDefaultModulesForIndustry` agree on the non-core modules: a
      module has a key in the generated map exactly when that function lists it. */
  lemma DefaultModulesConfigMatchesList(industry: Industry, id: ModuleId)
    requires !IsCoreId(id)
    ensures ModuleKey(id) in DefaultModulesConfig(industry) <==> id in DefaultModulesForIndustry(industry)
  {
    DefaultModulesConfigEntry(industry, id);
    DefaultModulesForIndustryMembers(industry, id);
    if Registered(id) {
      RegistryWellFormed(id);
    }
  }

  /** When the `switch` gives a module the settings `s`, its entry in the output, if any, is
      `s`. */
  lemma DefaultModulesConfigSeed(industry: Industry, id: ModuleId, s: ModuleSettings)
    requires Seed(id, industry) == Some(s)
    ensures ModuleKey(id) in DefaultModulesConfig(industry) ==> DefaultModulesConfig(industry)[ModuleKey(id)] == s
  {
    DefaultModulesConfigEntry(industry, id);
  }

  // Which industries turn the modules with a `switch` case on by default.

  lemma StockOnByDefault(industry: Industry)
    ensures Toggleable(Stock) && IsDefaultEnabled(Stock, industry) <==> industry != Service
  {
  }

  lemma OrdersOnByDefault(industry: Industry)
    ensures Toggleable(Orders) && IsDefaultEnabled(Orders, industry) <==> industry != Grocery
  {
  }

  lemma PaymentsOnByDefault(industry: Industry)
    ensures Toggleable(Payments) && IsDefaultEnabled(Payments, industry)
  {
  }

  lemma DeliveriesOnByDefault(industry: Industry)
    ensures Toggleable(Deliveries) && IsDefaultEnabled(Deliveries, industry) <==> industry == Distributor
  {
  }

  /** Stock (key `"stock"`) is written for every industry but service. */
  lemma StockWritten(industry: Industry)
    ensures ModuleKey(Stock) in DefaultModulesConfig(industry) <==> industry != Service
  {
    DefaultModulesConfigEntry(industry, Stock);
    StockOnByDefault(industry);
  }

  /** What is written under the stock key. */
  lemma StockValue(industry: Industry)
    ensures ModuleKey(Stock) in DefaultModulesConfig(industry) ==>
              DefaultModulesConfig(industry)[ModuleKey(Stock)] == StockSeed(industry)
  {
    DefaultModulesConfigEntry(industry, Stock);
    SeedOfStock(industry);
  }

  /** The `switch` case of `stock`. */
  lemma SeedOfStock(industry: Industry)
    ensures Seed(Stock, industry) == Some(StockSeed(industry))
  {
  }

  /** The stock settings track by variant only for retail and show projections only for
      distributor. */
  lemma StockSeedFields(industry: Industry)
    ensures StockSeed(industry).fields["trackByVariant"] == JBool(industry == Retail)
    ensures StockSeed(industry).fields["showProjections"] == JBool(industry == Distributor)
  {
  }

  /** Orders (key `"orders"`) are written for every industry but grocery. */
  lemma OrdersWritten(industry: Industry)
    ensures ModuleKey(Orders) in DefaultModulesConfig(industry) <==> industry != Grocery
  {
    DefaultModulesConfigEntry(industry, Orders);
    OrdersOnByDefault(industry);
  }

  /** What is written under the orders key. */
  lemma OrdersValue(industry: Industry)
    ensures ModuleKey(Orders) in DefaultModulesConfig(industry) ==>
              DefaultModulesConfig(industry)[ModuleKey(Orders)] == OrdersSeed(industry)
  {
    DefaultModulesConfigEntry(industry, Orders);
    SeedOfOrders(industry);
  }

  /** The `switch` case of `orders`. */
  lemma SeedOfOrders(industry: Industry)
    ensures Seed(Orders, industry) == Some(OrdersSeed(industry))
  {
  }

  /** The orders settings require a customer only for distributor. */
  lemma OrdersSeedFields(industry: Industry)
    ensures OrdersSeed(industry).fields["requireCustomer"] == JBool(industry == Distributor)
  {
  }

  /** Payments (key `"payments"`) are written for every industry. */
  lemma PaymentsWritten(industry: Industry)
    ensures ModuleKey(Payments) in DefaultModulesConfig(industry)
  {
    DefaultModulesConfigEntry(industry, Payments);
    PaymentsOnByDefault(industry);
  }

  /** What is written under the payments key. */
  lemma PaymentsValue(industry: Industry)
    ensures ModuleKey(Payments) in DefaultModulesConfig(industry) ==>
              DefaultModulesConfig(industry)[ModuleKey(Payments)] == PaymentsSeed(industry)
  {
    DefaultModulesConfigEntry(industry, Payments);
    SeedOfPayments(industry);
  }

  /** The `switch` case of `payments`. */
  lemma SeedOfPayments(industry: Industry)
    ensures Seed(Payments, industry) == Some(PaymentsSeed(industry))
  {
  }

  /** The payments settings send automatic reminders only for distributor. */
  lemma PaymentsSeedFields(industry: Industry)
    ensures PaymentsSeed(industry).fields["autoReminders"] == JBool(industry == Distributor)
  {
  }

  /** Deliveries (key `"deliveries"`) are written only for distributor. */
  lemma DeliveriesWritten(industry: Industry)
    ensures ModuleKey(Deliveries) in DefaultModulesConfig(industry) <==> industry == Distributor
  {
    DefaultModulesConfigEntry(industry, Deliveries);
    DeliveriesOnByDefault(industry);
  }

  /** What is written under the deliveries key. */
  lemma DeliveriesValue(industry: Industry)
    ensures ModuleKey(Deliveries) in DefaultModulesConfig(industry) ==>
              DefaultModulesConfig(industry)[ModuleKey(Deliveries)] == DeliveriesSeed
  {
    DefaultModulesConfigEntry(industry, Deliveries);
    SeedOfDeliveries(industry);
  }

  /** The `switch` case of `deliveries`. */
  lemma SeedOfDeliveries(industry: Industry)
    ensures Seed(Deliveries, industry) == Some(DeliveriesSeed)
  {
  }

  /** The deliveries settings use the business's own fleet. */
  lemma DeliveriesSeedFields()
    ensures DeliveriesSeed.fields["type"] == JStr("own_fleet")
  {
  }

  /** For grocery, every key written is `stock` or `payments`. */
  lemma GroceryKeysOnly(industry: Industry, k: string)
    requires industry == Grocery && k in DefaultModulesConfig(industry)
    ensures k == ModuleKey(Stock) || k == ModuleKey(Payments)
  {
    DefaultModulesConfigKeys(industry, k);
    var id :| ModuleKey(id) == k && Toggleable(id) && IsDefaultEnabled(id, industry);
    GroceryOnByDefault(id);
  }

  /** Exactly `stock` and `payments` are written for grocery. */
  lemma GroceryKeys(industry: Industry)
    requires industry == Grocery
    ensures forall k :: k in DefaultModulesConfig(industry) <==> k == ModuleKey(Stock) || k == ModuleKey(Payments)
  {
    StockWritten(industry);
    PaymentsWritten(industry);
    forall k | k in DefaultModulesConfig(industry) ensures k == ModuleKey(Stock) || k == ModuleKey(Payments) {
      GroceryKeysOnly(industry, k);
    }
  }

  /** Every other industry also gets `orders`. */
  lemma NonGroceryKeys(industry: Industry)
    requires industry != Grocery
    ensures ModuleKey(Orders) in DefaultModulesConfig(industry)
  {
    OrdersWritten(industry);
  }

  /** The keys of orders, stock and payments differ. */
  lemma OrdersStockPaymentsKeys()
    ensures ModuleKey(Orders) != ModuleKey(Stock) && ModuleKey(Orders) != ModuleKey(Payments)
  {
  }

  /** Exactly `stock` and `payments` are written for grocery, and no other industry gets that
      pair. */
  lemma GroceryDefaults(industry: Industry)
    ensures (forall k :: k in DefaultModulesConfig(industry) <==> k == ModuleKey(Stock) || k == ModuleKey(Payments)) <==>
              industry == Grocery
  {
    if industry == Grocery {
      GroceryKeys(industry);
    } else {
      NonGroceryKeys(industry);
      OrdersStockPaymentsKeys();
      var k := ModuleKey(Orders);
      assert k in DefaultModulesConfig(industry) && !(k == ModuleKey(Stock) || k == ModuleKey(Payments));
    }
  }

  /** The toggleable modules on by default for grocery are stock and payments. */
  lemma GroceryOnByDefault(id: ModuleId)
    requires Toggleable(id) && IsDefaultEnabled(id, Grocery)
    ensures id == Stock || id == Payments
  {
  }
}
