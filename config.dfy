/** Application constants: form-length limits, the valid industries and the configuration
    document a new business of each industry starts with (lib/config.ts). */
module AppConfig {
  import opened Wrappers
  import opened AppTypes
  import opened ModuleTypes
  import opened BusinessTypes

  // `VALIDATION`

  const PasswordMinLength: nat := 8
  const BusinessNameMinLength: nat := 2
  const BusinessNameMaxLength: nat := 100
  const UserNameMinLength: nat := 2
  const UserNameMaxLength: nat := 100

  /** `VALID_INDUSTRIES`, in declared order. */
  const ValidIndustries: seq<Industry> := [Distributor, Retail, Grocery, Service]

  /** `isValidIndustry`: `VALID_INDUSTRIES.includes(industry)`. */
  predicate IsValidIndustry(s: string) {
    exists i | i in ValidIndustries :: IndustryKey(i) == s
  }

  /** The valid industries are exactly the four industry keys, which are also exactly the
      strings `ParseIndustry` accepts. */
  lemma IsValidIndustryExact(s: string)
    ensures IsValidIndustry(s) <==> s in {"distributor", "retail", "grocery", "service"}
    ensures IsValidIndustry(s) <==> ParseIndustry(s).Some?
  {
    assert IndustryKey(ValidIndustries[0]) == "distributor";
    assert IndustryKey(ValidIndustries[1]) == "retail";
    assert IndustryKey(ValidIndustries[2]) == "grocery";
    assert IndustryKey(ValidIndustries[3]) == "service";
  }

  /** Every industry is listed, and its key is valid. */
  lemma ValidIndustriesListed(i: Industry)
    ensures i in ValidIndustries && IsValidIndustry(IndustryKey(i))
  {
    var k := match i case Distributor => 0 case Retail => 1 case Grocery => 2 case Service => 3;
    assert ValidIndustries[k] == i;
  }

  // `DEFAULT_CONFIGS`, one module entry at a time.

  function StockDefault(i: Industry): ModuleSettings {
    match i
    case Distributor => ModuleSettings(Some(true), map["variants" := JBool(false), "projections" := JBool(true)])
    case Retail => ModuleSettings(Some(true), map["variants" := JBool(true), "projections" := JBool(false)])
    case Grocery => ModuleSettings(Some(true), map["variants" := JBool(false), "projections" := JBool(true)])
    case Service => ModuleSettings(Some(false), map[])
  }

  function OrdersDefault(i: Industry): ModuleSettings {
    match i
    case Distributor => ModuleSettings(Some(true), map["recurring" := JBool(true), "tiered_pricing" := JBool(true)])
    case Retail => ModuleSettings(Some(true), map["recurring" := JBool(false), "tiered_pricing" := JBool(false)])
    case Grocery => ModuleSettings(Some(false), map[])
    case Service => ModuleSettings(Some(true), map["recurring" := JBool(false), "tiered_pricing" := JBool(false)])
  }

  function DeliveriesDefault(i: Industry): ModuleSettings {
    match i
    case Distributor => ModuleSettings(Some(true), map["type" := JStr("own_routes")])
    case _ => ModuleSettings(Some(false), map[])
  }

  function BillingDefault(i: Industry): ModuleSettings {
    ModuleSettings(Some(true), map[
      "current_account" := JBool(true),
      "auto_reminders" := JBool(i != Grocery)])
  }

  /** `DEFAULT_CONFIGS[i]`: a document holding only `modules`, with the four entries `stock`,
      `orders`, `deliveries` and `billing`. */
  function DefaultConfigs(i: Industry): BusinessConfig {
    BusinessConfig(Some(map[
      "stock" := StockDefault(i),
      "orders" := OrdersDefault(i),
      "deliveries" := DeliveriesDefault(i),
      "billing" := BillingDefault(i)]), None, map[])
  }

  /** `getDefaultConfig`: `DEFAULT_CONFIGS[industry] ?? DEFAULT_CONFIGS.distributor`. The
      lookup is by string; a string that names no industry falls back to distributor. */
  function GetDefaultConfig(s: string): BusinessConfig {
    match ParseIndustry(s)
    case Some(i) => DefaultConfigs(i)
    case None => DefaultConfigs(Distributor)
  }

  /** Every valid industry gets its own table entry; anything else gets distributor's. */
  lemma GetDefaultConfigLookup(s: string)
    ensures forall i :: IndustryKey(i) == s ==> GetDefaultConfig(s) == DefaultConfigs(i)
    ensures !IsValidIndustry(s) ==> GetDefaultConfig(s) == DefaultConfigs(Distributor)
  {
    IsValidIndustryExact(s);
    forall i | IndustryKey(i) == s ensures GetDefaultConfig(s) == DefaultConfigs(i) {
      ParseIndustryKey(i);
    }
  }

  /** Which entries of `DEFAULT_CONFIGS[i]` are enabled: `billing` for every industry,
      `deliveries` only for distributor, `stock` for all but service and `orders` for all but
      grocery. */
  lemma DefaultConfigsEnabled(i: Industry)
    ensures DefaultConfigs(i).modules.Some?
    ensures DefaultConfigs(i).modules.value.Keys == {"stock", "orders", "deliveries", "billing"}
    ensures DefaultConfigs(i).modules.value["billing"].enabled == Some(true)
    ensures DefaultConfigs(i).modules.value["deliveries"].enabled == Some(i == Distributor)
    ensures DefaultConfigs(i).modules.value["stock"].enabled == Some(i != Service)
    ensures DefaultConfigs(i).modules.value["orders"].enabled == Some(i != Grocery)
  {
  }

  /** The other settings of `DEFAULT_CONFIGS`: stock tracks variants only for retail and
      shows projections for all but retail, recurring orders and tiered pricing are on only
      for distributor, and billing always keeps a current account and sends reminders for
      all but grocery. */
  lemma DefaultConfigsSettings(i: Industry)
    ensures i != Service ==> StockDefault(i).fields["variants"] == JBool(i == Retail)
    ensures i != Service ==> StockDefault(i).fields["projections"] == JBool(i != Retail)
    ensures i != Grocery ==> OrdersDefault(i).fields["recurring"] == JBool(i == Distributor)
    ensures i != Grocery ==> OrdersDefault(i).fields["tiered_pricing"] == JBool(i == Distributor)
    ensures i == Distributor ==> DeliveriesDefault(i).fields["type"] == JStr("own_routes")
    ensures BillingDefault(i).fields["current_account"] == JBool(true)
    ensures BillingDefault(i).fields["auto_reminders"] == JBool(i != Grocery)
  {
  }

  /** `DEFAULT_CONFIGS` follows the older four-key module shape of types/app.types.ts, not
      the `ModulesConfig` of types/modules.types.ts that the evaluator reads: its `billing` key
      is the key of no module, so nothing reads the settings stored under it. */
  lemma DefaultConfigsNotModulesConfig(i: Industry)
    ensures DefaultConfigs(i).modules.Some?
    ensures "billing" in DefaultConfigs(i).modules.value && ParseModuleKey("billing").None?
    ensures !WellTypedModulesConfig(DefaultConfigs(i).modules.value)
  {
    assert "billing" in DefaultConfigs(i).modules.value;
  }
}
