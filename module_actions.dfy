/** The configuration update of the two module actions: switching one module on or off, and
    resetting every module to its industry default (actions/modules.ts). The document read
    before and written after each update is a value here. */
module ModuleActions {
  import opened Wrappers
  import opened AppTypes
  import opened ModuleTypes
  import opened BusinessTypes
  import opened ModuleRegistry
  import opened Entitlement
  import opened DefaultConfig
  import opened AppConfig

  const InvalidModule := "Módulo no válido"
  const CannotDisable := "Este módulo no puede ser desactivado"
  const InvalidIndustry := "Industria no válida"

  /** `currentModules`: the stored modules map, or the empty one. */
  function CurrentModules(c: BusinessConfig): ModulesConfig {
    c.modules.GetOr(map[])
  }

  /** `toggleModuleAction` from the registry checks to the new document: the module must have
      a registry entry and, when it is being switched off, must be one that can be; then its
      settings object (created when absent) gets `enabled` and the document keeps every other
      key. The dependency and `requiredBy` checks of the action have empty bodies. */
  function ToggleModule(c: BusinessConfig, id: ModuleId, enabled: bool): (r: Result<BusinessConfig>)
    ensures r == Failure(InvalidModule) <==> !Registered(id)
    ensures r == Failure(CannotDisable) <==> Registered(id) && !CanDisable(id) && !enabled
    ensures r.Success? <==> Registered(id) && (CanDisable(id) || enabled)
  {
    if !Registered(id) then Failure(InvalidModule)
    else if !CanDisable(id) && !enabled then Failure(CannotDisable)
    else
      var modules := CurrentModules(c);
      var key := ModuleKey(id);
      var fields := if key in modules then modules[key].fields else map[];
      Success(BusinessConfig(Some(modules[key := ModuleSettings(Some(enabled), fields)]), c.subscription, c.rest))
  }

  /** A core module cannot be switched off, but switching it on is accepted. */
  lemma ToggleCoreModule(c: BusinessConfig, id: ModuleId)
    requires IsCoreId(id)
    ensures ToggleModule(c, id, false) == Failure(CannotDisable)
    ensures ToggleModule(c, id, true).Success?
  {
  }

  /** Nothing about the other modules can stop a toggle: switching on any registered module,
      and switching off any module that can be disabled, succeed whatever the stored document
      says about its dependencies or dependants. */
  lemma ToggleIgnoresDependencies(c: BusinessConfig, id: ModuleId)
    requires Registered(id)
    ensures ToggleModule(c, id, true).Success?
    ensures CanDisable(id) ==> ToggleModule(c, id, false).Success?
  {
  }

  /** The merge: the module's entry now has `enabled` set as asked and keeps its other fields
      (none when the entry is new); every other entry, the subscription and every other
      top-level key are as they were. */
  lemma ToggleMerge(c: BusinessConfig, id: ModuleId, enabled: bool)
    requires ToggleModule(c, id, enabled).Success?
    ensures var c' := ToggleModule(c, id, enabled).value;
            c'.modules.Some? &&
            ModuleKey(id) in c'.modules.value &&
            c'.modules.value[ModuleKey(id)].enabled == Some(enabled) &&
            (ModuleKey(id) in CurrentModules(c) ==>
               c'.modules.value[ModuleKey(id)].fields == CurrentModules(c)[ModuleKey(id)].fields) &&
            (ModuleKey(id) !in CurrentModules(c) ==> c'.modules.value[ModuleKey(id)].fields == map[]) &&
            (forall k :: k != ModuleKey(id) ==>
               (k in c'.modules.value <==> k in CurrentModules(c)) &&
               (k in CurrentModules(c) ==> c'.modules.value[k] == CurrentModules(c)[k])) &&
            c'.subscription == c.subscription && c'.rest == c.rest
  {
  }

  /** Toggling twice to the same value is toggling once. */
  lemma ToggleIdempotent(c: BusinessConfig, id: ModuleId, enabled: bool)
    requires ToggleModule(c, id, enabled).Success?
    ensures ToggleModule(ToggleModule(c, id, enabled).value, id, enabled) == ToggleModule(c, id, enabled)
  {
    var c' := ToggleModule(c, id, enabled).value;
    var m := CurrentModules(c);
    var key := ModuleKey(id);
    var fields := if key in m then m[key].fields else map[];
    assert CurrentModules(c') == m[key := ModuleSettings(Some(enabled), fields)];
    assert CurrentModules(c')[key := ModuleSettings(Some(enabled), fields)] == CurrentModules(c');
  }

  /** A business whose document is `c`, updated. */
  function WithConfig(b: Business, c: BusinessConfig): Business {
    Business(b.id, b.name, b.industry, c)
  }

  /** Seen through `business.config?.modules?.[id]`, a toggle stores `enabled` for its own
      module and keeps the subscription. */
  lemma ToggleStoredOwn(c: BusinessConfig, id: ModuleId, enabled: bool)
    requires ToggleModule(c, id, enabled).Success?
    ensures StoredSettings(ToggleModule(c, id, enabled).value, id).Some?
    ensures StoredSettings(ToggleModule(c, id, enabled).value, id).value.enabled == Some(enabled)
    ensures ToggleModule(c, id, enabled).value.subscription == c.subscription
  {
  }

  /** A toggle changes the stored settings of no other module. */
  lemma ToggleStoredOther(c: BusinessConfig, id: ModuleId, enabled: bool, other: ModuleId)
    requires ToggleModule(c, id, enabled).Success? && other != id
    ensures StoredSettings(ToggleModule(c, id, enabled).value, other) == StoredSettings(c, other)
  {
    ModuleKeyDistinct(id, other);
  }

  /** `isModuleEnabled` reads of the document only the subscription and the module's own
      stored settings. */
  lemma IsEnabledForReads(b: Business, b': Business, id: ModuleId)
    requires b'.industry == b.industry && b'.config.subscription == b.config.subscription
    requires StoredSettings(b'.config, id) == StoredSettings(b.config, id)
    ensures IsEnabledFor(b', id) == IsEnabledFor(b, id)
  {
    assert Bypass(b'.config) == Bypass(b.config);
    assert EffectivePlan(b'.config) == EffectivePlan(b.config);
    assert StoredOrDefault(b', id) == StoredOrDefault(b, id);
  }

  /** After a toggle to `e` of a non-core module that the business can use (bypass, or a plan
      that unlocks the module's tier), `isModuleEnabled` gives `e`. */
  lemma ToggleThenEnabled(b: Business, id: ModuleId, e: bool)
    requires Registered(id) && !IsCoreId(id)
    requires Bypass(b.config) || HasTierAccess(EffectivePlan(b.config), ModuleTier(id))
    ensures ToggleModule(b.config, id, e).Success?
    ensures IsEnabledFor(WithConfig(b, ToggleModule(b.config, id, e).value), id) == e
  {
    RegistryWellFormed(id);
    ToggleStoredOwn(b.config, id, e);
  }

  /** A toggle changes what `isModuleEnabled` says about no other module. */
  lemma ToggleLeavesOthers(b: Business, id: ModuleId, e: bool, other: ModuleId)
    requires ToggleModule(b.config, id, e).Success? && other != id
    ensures IsEnabledFor(WithConfig(b, ToggleModule(b.config, id, e).value), other) == IsEnabledFor(b, other)
  {
    ToggleStoredOwn(b.config, id, e);
    ToggleStoredOther(b.config, id, e, other);
    IsEnabledForReads(b, WithConfig(b, ToggleModule(b.config, id, e).value), other);
  }

  /** `resetModulesToDefaultsAction` from the industry check to the new document: an invalid
      stored industry is rejected; otherwise `modules` becomes the generated default map and
      every other key is kept. */
  function ResetModules(industry: string, c: BusinessConfig): (r: Result<BusinessConfig>)
    ensures r == Failure(InvalidIndustry) <==> !IsValidIndustry(industry)
    ensures r.Success? <==> IsValidIndustry(industry)
  {
    IsValidIndustryExact(industry);
    match ParseIndustry(industry)
    case None => Failure(InvalidIndustry)
    case Some(i) => Success(BusinessConfig(Some(DefaultModulesConfig(i)), c.subscription, c.rest))
  }

  /** A reset replaces `modules` wholesale by the map generated for the industry and keeps
      the subscription and every other key. */
  lemma ResetReplacesModules(i: Industry, c: BusinessConfig)
    ensures ResetModules(IndustryKey(i), c) ==
              Success(BusinessConfig(Some(DefaultModulesConfig(i)), c.subscription, c.rest))
  {
    ParseIndustryKey(i);
  }

  /** Resetting twice is resetting once. */
  lemma ResetIdempotent(industry: string, c: BusinessConfig)
    requires ResetModules(industry, c).Success?
    ensures ResetModules(industry, ResetModules(industry, c).value) == ResetModules(industry, c)
  {
  }

  /** After a reset every non-core module is on exactly when it is on by default for the
      business's industry, as far as the stored settings decide. */
  lemma ResetThenDefaults(b: Business, id: ModuleId)
    requires Registered(id) && !IsCoreId(id)
    ensures ResetModules(IndustryKey(b.industry), b.config).Success?
    ensures StoredOrDefault(WithConfig(b, ResetModules(IndustryKey(b.industry), b.config).value), id) ==
              IsDefaultEnabled(id, b.industry)
  {
    ResetReplacesModules(b.industry, b.config);
    RegistryWellFormed(id);
    DefaultModulesConfigEntry(b.industry, id);
    SeedEnabled(id, b.industry);
  }
}
