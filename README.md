# Module entitlements of a small-business management app

This project models, in Dafny, the core that decides which modules a business can use in a
multi-tenant management app for small businesses. The businesses are distributors, shops,
groceries and service providers. The model covers:

- **The module registry** (`MODULES`). It holds 21 entries: four core modules (dashboard,
  products, customers, settings) that are on for every business, and 17 toggleable modules. Each entry has
  a subscription tier, an industry default rule, whether it can be disabled, and its
  dependency and dependant lists. The `ModuleId` type admits three more identifiers (chat,
  telegram bot, voice input) that have no entry.
- **The entitlement evaluator** (`isModuleEnabled`). It runs one decision list: no business;
  unknown module; core tier; the development bypass; the tier gate of the subscription plan;
  the stored `enabled` flag; the industry default. Around it sit `hasTierAccess`,
  `isDefaultEnabled`, `canEnableModule` (which also scans dependencies in declared order),
  `getModuleConfig`, `getDefaultModulesForIndustry` and the navigation filter.
- **The default module configuration** a business gets for its industry
  (`generateDefaultModulesConfig`). It is a loop over the toggleable modules that writes one
  settings object per module that is on by default.
- **The application constants** of lib/config.ts: the password length limit, the valid
  industries, and the per-industry `DEFAULT_CONFIGS` document.
- **The pre-backend checks** of the login, sign-up and onboarding actions, and the document
  onboarding stores for a new business.
- **The configuration update** of the two module actions: toggling one module, and resetting all
  modules to the industry defaults.
- **The industry display data**.

The stored configuration document is a value (`BusinessConfig`). Its `modules` map is keyed
by the stored JSON key string, so keys that name no module (such as `billing`) can be
represented and reasoned about. Module identifiers are a datatype. `ModuleKey` gives each
identifier's string, and `ParseModuleKey` reads it back.

Module layout:

| file | module | models |
|---|---|---|
| wrappers.dfy | Wrappers | Option, Result, Outcome |
| seqs.dfy | Seqs | `filter`, `find`, and a keyed write loop over sequences |
| app_types.dfy | AppTypes | industries, JSON values, industry cards |
| module_types.dfy | ModuleTypes | tiers, plans, `PLAN_INCLUDES_TIERS`, module ids, metadata, stored settings, `DEV_SUBSCRIPTION` |
| business.dfy | BusinessTypes | the business record, its configuration document, the subscription reads |
| registry.dfy | ModuleRegistry | `MODULES` and its getters |
| entitlement.dfy | Entitlement | tier access, defaults, `isModuleEnabled`, `canEnableModule`, `getModuleConfig`, `getDefaultModulesForIndustry`, navigation |
| default_config.dfy | DefaultConfig | `generateDefaultModulesConfig` |
| config.dfy | AppConfig | lib/config.ts |
| auth_actions.dfy | AuthActions | form checks and onboarding document of actions/auth.ts |
| module_actions.dfy | ModuleActions | toggle and reset of actions/modules.ts |
| industries.dfy | Industries | lib/industries.ts |

Two behaviours of the code that are easy to misread, modelled as written:

- With no business, `isModuleEnabled` answers `process.env.NODE_ENV === 'development'`. Here
  that is the parameter `isDevelopment`; it is not unconditionally `true`.
- The `default:` branch of the generator's `switch` writes nothing; it does not write an empty
  enabled entry. `DefaultConfig.SwitchCoversDefaults` proves that no module on by default for
  any industry reaches that branch.

## Model

| member | source | states |
|---|---|---|
| AppTypes.ParseIndustry | nexo-app/types/app.types.ts:12 | a string read as an industry is that industry's stored key |
| AppTypes.ParseIndustryKey | nexo-app/types/app.types.ts:12 | reading an industry's key gives back the industry |
| AppTypes.ParseIndustryExact | nexo-app/types/app.types.ts:12 | exactly the four strings `distributor`, `retail`, `grocery`, `service` are industries |
| ModuleTypes.TierRank | nexo-app/types/modules.types.ts:20 | a tier's rank is at most 4; rank 0 is exactly core and rank 4 exactly enterprise |
| ModuleTypes.TierRankInjective | nexo-app/types/modules.types.ts:20 | distinct tiers have distinct ranks, so ranking orders the five tiers |
| ModuleTypes.PlanTier | nexo-app/types/modules.types.ts:22 | no subscription plan is named after the core tier |
| ModuleTypes.PlansNameNonCoreTiers | nexo-app/types/modules.types.ts:20-22 | each non-core tier is the tier of exactly one plan; core is the tier of none |
| ModuleTypes.PlanIncludesTiersCumulative | nexo-app/types/modules.types.ts:24-33 | a plan includes a tier exactly when the tier is not above the plan's own |
| ModuleTypes.PlanIncludesTiersNested | nexo-app/types/modules.types.ts:24-33 | free ⊆ pro ⊆ business ⊆ enterprise, strictly; every plan includes core; enterprise includes every tier |
| ModuleTypes.PlanIncludesTiers | nexo-app/types/modules.types.ts:28-33 | the table `PLAN_INCLUDES_TIERS`; its meaning is stated by `ModuleTypes.PlanIncludesTiersCumulative` (a tier is included exactly when its rank is at most the plan's) and `ModuleTypes.PlanIncludesTiersNested` |
| ModuleTypes.DevSubscriptionIsUnrestricted | nexo-app/types/modules.types.ts:364-368 | `DEV_SUBSCRIPTION` is the enterprise plan, which includes every tier, with restrictions bypassed |
| ModuleTypes.ParseModuleKeyRoundTrip | nexo-app/types/modules.types.ts:55-84 | reading an identifier's stored key gives back the identifier |
| ModuleTypes.ModuleKeyDistinct | nexo-app/types/modules.types.ts:55-84 | two distinct identifiers have distinct keys |
| ModuleTypes.ModuleKeyInjective | nexo-app/types/modules.types.ts:55-84 | equal keys mean equal identifiers, for all pairs |
| ModuleTypes.ModuleKey | nexo-app/types/modules.types.ts:55-84 | the string each identifier is written as; stated by `ModuleTypes.ModuleKeyInjective`, `ModuleTypes.ModuleKeyDistinct` and `ModuleTypes.ParseModuleKeyRoundTrip` |
| ModuleTypes.ParseModuleKey | nexo-app/types/modules.types.ts:55-84 | reading a string as an identifier; `ModuleTypes.ParseModuleKeyRoundTrip` proves it inverts `ModuleKey` |
| ModuleTypes.ModulesConfigKeysNonCore | nexo-app/types/modules.types.ts:313-341 | `ModulesConfig` has a key and a settings shape for exactly the 20 non-core identifiers |
| BusinessTypes.StoredSettings | nexo-app/lib/modules.ts:378 | the stored settings of a module exist exactly when the document has `modules` with that module's key, and are the entry under it |
| BusinessTypes.EffectivePlan | nexo-app/lib/modules.ts:372 | a missing subscription or plan counts as free; otherwise the stored plan counts |
| ModuleRegistry.Registry | nexo-app/lib/modules.ts:51-292 | an identifier has an entry exactly when it is registered (all but chat, telegram bot, voice input) |
| ModuleRegistry.Entry | nexo-app/lib/modules.ts:51-292 | an entry is filed under its own identifier |
| ModuleRegistry.GetModule | nexo-app/lib/modules.ts:301-303 | the lookup is None exactly for the three unregistered identifiers; an entry carries its own id, tier, default rule, `canDisable` and dependencies |
| ModuleRegistry.DeclaredId | nexo-app/lib/modules.ts:51-292 | each of the 21 positions in declaration order holds a registered identifier |
| ModuleRegistry.DeclaredIdPosition | nexo-app/lib/modules.ts:51-292 | declaration order visits each position once |
| ModuleRegistry.PositionDeclared | nexo-app/lib/modules.ts:51-292 | every registered identifier has a position in declaration order |
| ModuleRegistry.AllModules | nexo-app/lib/modules.ts:308-310 | `getAllModules` has 21 entries |
| ModuleRegistry.AllModulesAreRegistry | nexo-app/lib/modules.ts:308-310 | `getAllModules` lists exactly the registry's entries, with no identifier twice |
| ModuleRegistry.AllModulesSound | nexo-app/lib/modules.ts:308-310 | every entry `getAllModules` lists is the registry's entry for its identifier |
| ModuleRegistry.AllModulesComplete | nexo-app/lib/modules.ts:308-310 | every registry entry is listed by `getAllModules` |
| ModuleRegistry.AllModulesDistinct | nexo-app/lib/modules.ts:308-310 | no identifier is listed twice by `getAllModules` |
| ModuleRegistry.ModulesByTier | nexo-app/lib/modules.ts:315-317 | the entries of one tier, in registry order |
| ModuleRegistry.ModulesByCategory | nexo-app/lib/modules.ts:322-324 | the entries of one category, in registry order |
| ModuleRegistry.CoreModules | nexo-app/lib/modules.ts:329-331 | the entries of the core tier, in registry order |
| ModuleRegistry.ToggleableModules | nexo-app/lib/modules.ts:336-338 | the entries that can be disabled, in registry order |
| ModuleRegistry.CoreAndToggleableModules | nexo-app/lib/modules.ts:329-338 | the core modules are exactly the four core identifiers' entries; the toggleable ones are exactly the other registered entries |
| ModuleRegistry.RegistryWellFormed | nexo-app/lib/modules.ts:51-292 | core tier ⇔ cannot be disabled ⇔ core identifier; every dependency is registered and of a strictly lower tier; every `requiredBy` module depends on the module |
| ModuleRegistry.RequiredByIsPartial | nexo-app/lib/modules.ts:99-157 | variants depends on stock, but stock's `requiredBy` does not list variants |
| Entitlement.HasTierAccess | nexo-app/lib/modules.ts:390-400 | `hasTierAccess`; its meaning is `Entitlement.HasTierAccessCumulative` and `Entitlement.PlanTiersIsPlanIncludesTiers` |
| Entitlement.IsDefaultEnabled | nexo-app/lib/modules.ts:405-413 | `isDefaultEnabled`; its meaning is `Entitlement.DefaultRuleMeaning` |
| Entitlement.IsModuleEnabled | nexo-app/lib/modules.ts:344-385 | `isModuleEnabled`; stated by `Entitlement.NoBusinessFollowsDevelopmentFlag` (no business) and, with a business, by the lemmas on `Entitlement.IsEnabledFor` |
| Entitlement.IsEnabledFor | nexo-app/lib/modules.ts:352-384 | the decision list for a present business; stated by `Entitlement.UnknownThenCore`, `Entitlement.TierGateOverridesStoredFlag`, `Entitlement.StoredFlagThenDefault` and `Entitlement.IsEnabledForClosedForm` |
| Entitlement.PlanTiersIsPlanIncludesTiers | nexo-app/lib/modules.ts:390-400 | the table inside `hasTierAccess` equals `PLAN_INCLUDES_TIERS` |
| Entitlement.HasTierAccessCumulative | nexo-app/lib/modules.ts:390-400 | a plan unlocks exactly the tiers up to its own; core always; free exactly core and free; enterprise everything; access is monotone in the plan |
| Entitlement.NoBusinessFollowsDevelopmentFlag | nexo-app/lib/modules.ts:348-351 | with no business the development flag decides, for core modules too |
| Entitlement.UnknownThenCore | nexo-app/lib/modules.ts:353-357 | with a business, an unregistered identifier is disabled and a core module is enabled |
| Entitlement.TierGateOverridesStoredFlag | nexo-app/lib/modules.ts:371-375 | without bypass, a tier the plan does not unlock disables the module whatever is stored |
| Entitlement.StoredFlagThenDefault | nexo-app/lib/modules.ts:359-384 | past the tier rules, a stored `enabled` field decides; without one, the industry default does |
| Entitlement.DefaultRuleMeaning | nexo-app/lib/modules.ts:405-413 | default rule all ⇒ on, none ⇒ off, a list ⇒ on exactly for the listed industries |
| Entitlement.IsEnabledForClosedForm | nexo-app/lib/modules.ts:344-385 | the whole decision list as one formula, with tier access by rank |
| Entitlement.BypassIgnoresPlan | nexo-app/lib/modules.ts:359-368 | under bypass, replacing the subscription by another bypassing one changes nothing |
| Entitlement.UpgradeNeverDisables | nexo-app/lib/modules.ts:371-375 | moving to a plan at least as high never disables an enabled module |
| Entitlement.GroceryFreeScenario | nexo-app/lib/modules.ts:344-385 | a grocery on free with nothing stored has stock but not reports |
| Entitlement.StoredOrdersOffScenario | nexo-app/lib/modules.ts:377-381 | a stored `orders.enabled = false` on pro disables orders although the default is on |
| Entitlement.DevSubscriptionFollowsStored | nexo-app/types/modules.types.ts:364-368 | a business carrying `DEV_SUBSCRIPTION` bypasses restrictions: every registered non-core module follows its stored flag or its industry default, whatever its tier |
| Entitlement.CheckDependencies | nexo-app/lib/modules.ts:456-466 | the scan succeeds exactly when every dependency is enabled; otherwise it names the first unmet dependency in declared order |
| Entitlement.CanEnableModule | nexo-app/lib/modules.ts:432-469 | unknown ⇒ "Módulo no existe"; core ⇒ allowed; a locked tier ⇒ "Requiere plan TIER"; else allowed exactly when all dependencies are enabled, naming the first unmet one |
| Entitlement.GetModuleConfig | nexo-app/lib/modules.ts:474-480 | None without a business; otherwise exactly the stored entry, with no defaulting |
| Entitlement.Ids | nexo-app/lib/modules.ts:418-427 | `.map((m) => m.id)` keeps length and position |
| Entitlement.DefaultModulesForIndustry | nexo-app/lib/modules.ts:418-427 | `getDefaultModulesForIndustry`; stated by `Entitlement.DefaultModulesForIndustryMembers` and `Entitlement.DefaultModulesForIndustryOrdered` |
| Entitlement.OnByDefaultMeaning | nexo-app/lib/modules.ts:419-425 | the filter keeps a registry entry exactly when it is core or on by default for the industry |
| Entitlement.DefaultModulesForIndustrySound | nexo-app/lib/modules.ts:418-427 | only core modules and modules on by default are listed |
| Entitlement.DefaultModulesForIndustryComplete | nexo-app/lib/modules.ts:418-427 | every core module and every module on by default is listed |
| Entitlement.DefaultModulesForIndustryMembers | nexo-app/lib/modules.ts:418-427 | listed ⇔ registered and (core or on by default) |
| Entitlement.DefaultModulesForIndustryOrdered | nexo-app/lib/modules.ts:418-427 | the list keeps the registry's order and names no identifier twice |
| Entitlement.NavigationEntries | nexo-app/lib/modules.ts:565-580 | one registry entry per navigation identifier |
| Entitlement.CoreNavigationIndex | nexo-app/lib/modules.ts:565-573 | each core identifier has a position in `NAVIGATION_MODULES` |
| Entitlement.NavigationModules | nexo-app/lib/modules.ts:578-582 | exactly the navigation entries that are enabled, in their fixed order |
| Entitlement.NavigationWithoutBusiness | nexo-app/lib/modules.ts:578-582 | with no business the navigation is empty outside development and complete inside it |
| Entitlement.CoreAlwaysEnabled | nexo-app/lib/modules.ts:356-357 | the four core modules are registered and enabled for every business |
| Entitlement.NavigationListsCore | nexo-app/lib/modules.ts:565-573 | the four core modules are navigation entries |
| Entitlement.NavigationShowsCore | nexo-app/lib/modules.ts:578-582 | with a business the four core entries always show |
| DefaultConfig.DefaultModulesConfig | nexo-app/lib/modules.ts:485-556 | the map `generateDefaultModulesConfig` returns; stated by `DefaultConfig.DefaultModulesConfigEntry`, `DefaultConfig.DefaultModulesConfigKeys` and `DefaultConfig.DefaultModulesConfigWellTyped` |
| DefaultConfig.WriteDefaults | nexo-app/lib/modules.ts:488-553 | the loop's map is the left-to-right fold of the per-module writes |
| DefaultConfig.EmissionStep | nexo-app/lib/modules.ts:489-494 | what one visit of the loop writes: the module's case under its key when it is on by default and has a case, nothing otherwise |
| DefaultConfig.GenerateDefaultModulesConfig | nexo-app/lib/modules.ts:485-556 | the generator returns `DefaultModulesConfig(industry)` |
| DefaultConfig.SwitchCoversDefaults | nexo-app/lib/modules.ts:494-551 | every toggleable module on by default for some industry has its own `switch` case |
| DefaultConfig.SeedEnabled | nexo-app/lib/modules.ts:495-546 | every settings object the `switch` writes has `enabled: true` |
| DefaultConfig.EmissionMeaning | nexo-app/lib/modules.ts:489-494 | a module writes exactly when it is on by default and has a case, under its own key |
| DefaultConfig.EmissionKeyIsId | nexo-app/lib/modules.ts:489-494 | no two modules write under the same key |
| DefaultConfig.DefaultModulesConfigKeySound | nexo-app/lib/modules.ts:485-556 | a module's key is in the output only if it is toggleable and on by default |
| DefaultConfig.DefaultModulesConfigKeyComplete | nexo-app/lib/modules.ts:485-556 | every toggleable module on by default has its key in the output |
| DefaultConfig.DefaultModulesConfigValue | nexo-app/lib/modules.ts:485-556 | the value under a module's key is that module's `switch` case |
| DefaultConfig.DefaultModulesConfigEntry | nexo-app/lib/modules.ts:485-556 | key present ⇔ toggleable and on by default, with the module's case under it |
| DefaultConfig.DefaultModulesConfigKeys | nexo-app/lib/modules.ts:485-556 | every key of the output belongs to a toggleable module on by default, and every entry is enabled |
| DefaultConfig.DefaultModulesConfigWellTyped | nexo-app/lib/modules.ts:485-556 | the output has the shape `ModulesConfig` declares: module keys only, each entry with `enabled` and declared fields only |
| DefaultConfig.SeedConforms | nexo-app/types/modules.types.ts:127-341 | each `switch` case fits its module's declared settings shape |
| DefaultConfig.DefaultModulesConfigMatchesList | nexo-app/lib/modules.ts:418-427 | a non-core module has a key in the generated map exactly when `getDefaultModulesForIndustry` lists it |
| DefaultConfig.DefaultModulesConfigSeed | nexo-app/lib/modules.ts:494-551 | the entry written for a module is the settings its case gives |
| DefaultConfig.StockOnByDefault | nexo-app/lib/modules.ts:99-109 | stock is toggleable and on by default for every industry but service |
| DefaultConfig.OrdersOnByDefault | nexo-app/lib/modules.ts:110-120 | orders are toggleable and on by default for every industry but grocery |
| DefaultConfig.PaymentsOnByDefault | nexo-app/lib/modules.ts:121-134 | payments are toggleable and on by default for every industry |
| DefaultConfig.DeliveriesOnByDefault | nexo-app/lib/modules.ts:135-146 | deliveries are toggleable and on by default only for distributor |
| DefaultConfig.StockWritten | nexo-app/lib/modules.ts:495-502 | `stock` is written for every industry but service |
| DefaultConfig.StockValue | nexo-app/lib/modules.ts:495-502 | what is written under `stock` is the stock case |
| DefaultConfig.SeedOfStock | nexo-app/lib/modules.ts:495-502 | the `switch` case of `stock` |
| DefaultConfig.StockSeedFields | nexo-app/lib/modules.ts:499-500 | stock tracks by variant only for retail and shows projections only for distributor |
| DefaultConfig.OrdersWritten | nexo-app/lib/modules.ts:503-510 | `orders` is written for every industry but grocery |
| DefaultConfig.OrdersValue | nexo-app/lib/modules.ts:503-510 | what is written under `orders` is the orders case |
| DefaultConfig.SeedOfOrders | nexo-app/lib/modules.ts:503-510 | the `switch` case of `orders` |
| DefaultConfig.OrdersSeedFields | nexo-app/lib/modules.ts:506 | orders require a customer only for distributor |
| DefaultConfig.PaymentsWritten | nexo-app/lib/modules.ts:511-518 | `payments` is written for every industry |
| DefaultConfig.PaymentsValue | nexo-app/lib/modules.ts:511-518 | what is written under `payments` is the payments case |
| DefaultConfig.SeedOfPayments | nexo-app/lib/modules.ts:511-518 | the `switch` case of `payments` |
| DefaultConfig.PaymentsSeedFields | nexo-app/lib/modules.ts:515 | payments send automatic reminders only for distributor |
| DefaultConfig.DeliveriesWritten | nexo-app/lib/modules.ts:519-525 | `deliveries` is written only for distributor |
| DefaultConfig.DeliveriesValue | nexo-app/lib/modules.ts:519-525 | what is written under `deliveries` is the deliveries case |
| DefaultConfig.SeedOfDeliveries | nexo-app/lib/modules.ts:519-525 | the `switch` case of `deliveries` |
| DefaultConfig.DeliveriesSeedFields | nexo-app/lib/modules.ts:522 | deliveries use the business's own fleet |
| DefaultConfig.GroceryOnByDefault | nexo-app/lib/modules.ts:99-292 | the toggleable modules on by default for grocery are stock and payments |
| DefaultConfig.GroceryKeysOnly | nexo-app/lib/modules.ts:485-556 | for grocery every written key is `stock` or `payments` |
| DefaultConfig.GroceryKeys | nexo-app/lib/modules.ts:485-556 | for grocery exactly `stock` and `payments` are written |
| DefaultConfig.NonGroceryKeys | nexo-app/lib/modules.ts:503-510 | every other industry also gets `orders` |
| DefaultConfig.OrdersStockPaymentsKeys | nexo-app/types/modules.types.ts:55-84 | the keys of orders, stock and payments differ |
| DefaultConfig.GroceryDefaults | nexo-app/lib/modules.ts:485-556 | the output's keys are exactly `stock` and `payments` ⇔ the industry is grocery |
| AppConfig.IsValidIndustry | nexo-app/lib/config.ts:92-94 | `isValidIndustry`; stated by `AppConfig.IsValidIndustryExact` |
| AppConfig.GetDefaultConfig | nexo-app/lib/config.ts:85-87 | `getDefaultConfig`; stated by `AppConfig.GetDefaultConfigLookup` |
| AppConfig.IsValidIndustryExact | nexo-app/lib/config.ts:92-94 | the valid industries are exactly the four industry strings, which are exactly the strings read as industries |
| AppConfig.ValidIndustriesListed | nexo-app/lib/config.ts:36-41 | every industry is in `VALID_INDUSTRIES` |
| AppConfig.GetDefaultConfigLookup | nexo-app/lib/config.ts:85-87 | each industry gets its own `DEFAULT_CONFIGS` entry; any other string gets distributor's |
| AppConfig.DefaultConfigsEnabled | nexo-app/lib/config.ts:47-80 | the four keys; billing always enabled, deliveries only for distributor, stock for all but service, orders for all but grocery |
| AppConfig.DefaultConfigsSettings | nexo-app/lib/config.ts:47-80 | the remaining settings of each entry, as functions of the industry |
| AppConfig.DefaultConfigsNotModulesConfig | nexo-app/lib/config.ts:47-80 | the `billing` key names no module, so the document is not a `ModulesConfig` |
| AuthActions.LoginValidation | nexo-app/actions/auth.ts:16-21 | passes exactly when email and password are both non-empty; otherwise the one login error |
| AuthActions.SignupValidation | nexo-app/actions/auth.ts:72-88 | passes exactly when all four fields are non-empty, the passwords agree and the password has at least `PASSWORD_MIN_LENGTH` characters |
| AuthActions.SignupFirstFailure | nexo-app/actions/auth.ts:78-88 | each error is reported exactly when its check is the first to fail |
| AuthActions.SignupLengthBoundary | nexo-app/actions/auth.ts:86-88 | eight characters pass, seven fail with the length error |
| AuthActions.OnboardingValidation | nexo-app/actions/auth.ts:146-159 | passes exactly when industry and name are present and the industry is valid; otherwise the matching error |
| AuthActions.OnboardingIndustriesAreValid | nexo-app/actions/auth.ts:156-158 | the action's own industry list accepts exactly `VALID_INDUSTRIES` |
| AuthActions.LocalDefaultConfig | nexo-app/actions/auth.ts:224-258 | the local `getDefaultConfig`; stated by `AuthActions.LocalDefaultConfigIsGetDefaultConfig` |
| AuthActions.LocalConfigsAreDefaultConfigs | nexo-app/actions/auth.ts:224-258 | the action's local table equals `DEFAULT_CONFIGS`, entry for entry |
| AuthActions.LocalDefaultConfigIsGetDefaultConfig | nexo-app/actions/auth.ts:260 | the local lookup agrees with `getDefaultConfig` on every string, distributor's entry for others |
| AuthActions.OnboardingConfig | nexo-app/actions/auth.ts:152-175 | a document is produced exactly when the form checks pass; otherwise their error |
| AuthActions.OnboardingConfigKeys | nexo-app/actions/auth.ts:224-258 | the document holds only `modules`, with keys stock, orders, deliveries and `billing`; no payments entry is stored |
| AuthActions.OnboardedBusinessModules | nexo-app/actions/auth.ts:175 | fresh from onboarding: payments on, stock ⇔ not service, orders ⇔ not grocery, deliveries off even where stored on |
| ModuleActions.ToggleModule | nexo-app/actions/modules.ts:56-96 | "Módulo no válido" ⇔ unregistered; "Este módulo no puede ser desactivado" ⇔ switching off a module that cannot be; success otherwise |
| ModuleActions.ToggleCoreModule | nexo-app/actions/modules.ts:61-63 | a core module cannot be switched off but can be switched on |
| ModuleActions.ToggleIgnoresDependencies | nexo-app/actions/modules.ts:65-75 | dependencies and dependants never block a toggle |
| ModuleActions.ToggleMerge | nexo-app/actions/modules.ts:78-96 | the module's entry gets `enabled`, keeping its other fields; every other entry, the subscription and top-level key are unchanged |
| ModuleActions.ToggleIdempotent | nexo-app/actions/modules.ts:85-91 | toggling twice to the same value is toggling once |
| ModuleActions.ToggleStoredOwn | nexo-app/actions/modules.ts:85-91 | afterwards the module's stored flag is the requested one |
| ModuleActions.ToggleStoredOther | nexo-app/actions/modules.ts:85-86 | no other module's stored settings change |
| ModuleActions.IsEnabledForReads | nexo-app/lib/modules.ts:344-385 | `isModuleEnabled` depends only on the industry, the subscription and the module's own stored settings |
| ModuleActions.ToggleThenEnabled | nexo-app/actions/modules.ts:85-96 | after toggling a usable non-core module to `e`, `isModuleEnabled` gives `e` |
| ModuleActions.ToggleLeavesOthers | nexo-app/actions/modules.ts:85-96 | a toggle changes whether no other module is enabled |
| ModuleActions.ResetModules | nexo-app/actions/modules.ts:156-166 | "Industria no válida" ⇔ invalid industry; success ⇔ valid |
| ModuleActions.ResetReplacesModules | nexo-app/actions/modules.ts:160-166 | `modules` becomes the generated map wholesale; the subscription and other keys stay |
| ModuleActions.ResetIdempotent | nexo-app/actions/modules.ts:156-166 | resetting twice is resetting once |
| ModuleActions.ResetThenDefaults | nexo-app/actions/modules.ts:160-166 | after a reset a non-core module's stored-or-default state is its industry default |
| Industries.GetIndustryName | nexo-app/lib/industries.ts:29-32 | `getIndustryName`; stated by `Industries.GetIndustryNameCases` |
| Industries.GetIndustryById | nexo-app/lib/industries.ts:80-82 | `getIndustryById`; stated by `Industries.GetIndustryByIdFinds` |
| Industries.GetIndustryNameCases | nexo-app/lib/industries.ts:29-32 | `Negocio` for a missing or empty argument and for unknown strings; the industry's name for its key |
| Industries.FallbackIsNoName | nexo-app/lib/industries.ts:18-23 | no industry is called `Negocio` |
| Industries.CardIndex | nexo-app/lib/industries.ts:38-75 | every industry has a card |
| Industries.CardIdsDistinct | nexo-app/lib/industries.ts:38-75 | no two cards share an industry |
| Industries.CardUnique | nexo-app/lib/industries.ts:38-75 | an industry's card is its only card |
| Industries.GetIndustryByIdFinds | nexo-app/lib/industries.ts:80-82 | the lookup always finds the industry's one card |
| Industries.CardNamesAreIndustryNames | nexo-app/lib/industries.ts:18-75 | each card's name is the name `INDUSTRY_NAMES` gives |

## Left out

- Every Supabase call is out of the modelled logic: authentication, the user and business queries, the `complete_onboarding` RPC, the database write, redirects and cache revalidation. The actions are modelled from their form checks to the document they would write.
- The error mapping of the onboarding RPC (nexo-app/actions/auth.ts:191-210) and the backend-error branches of every action depend on the database.
- `process.env.NODE_ENV` is the parameter `isDevelopment`.
- Icons (`lucide-react` components), the `UI` constants, the logger and the timestamps of `Business` carry no logic and are omitted.
- `comingSoon` is set by no registry entry and is omitted from `ModuleMetadata`.
- The `description` text of each registry entry is the column `ModuleRegistry.ModuleDescription`, but it is not a field of `ModuleMetadata`: no logic reads it, and carrying 21 long literals in every entry only makes the proofs heavier.
- The registry is written column by column (`ModuleName`, `ModuleTier`, …); its entries are the same, but it is not one object literal.
- A JSON `null` for the configuration document, its `modules` or a module entry is treated like an absent one.
- JavaScript's inherited object keys (`constructor`, `toString`) are not modelled in `MODULES[id]`, `configs[industry]` or `INDUSTRY_NAMES[industry]` lookups.
- A stored plan string outside `SubscriptionPlan` is not modelled; the stored plan is an `Option<Plan>`.
- `SubscriptionConfig.status` and the dates are stored but read by no modelled code.
- ModuleTypes.ParseModuleKeyRoundTrip: only the direction `ParseModuleKey(ModuleKey(id)) == Some(id)` is proved, not that every accepted key is some identifier's key.
- AuthActions.SignupValidation: `password.length` counts UTF-16 code units in JavaScript and Dafny characters here; they differ for characters outside the Basic Multilingual Plane.
- A form field that is not a string (a file upload) is not modelled; a field is absent or a string.
- `getIndustryName` treats `null` and `undefined` alike; both are None here.
- The `getModuleConfig` type parameter that narrows the settings type per module is not modelled; the result is the untyped stored settings.

## Notes on the source

- `DEFAULT_CONFIGS` (nexo-app/lib/config.ts:47-80) and the local table in nexo-app/actions/auth.ts:224-258 follow the older four-key shape of nexo-app/types/app.types.ts:51-56. They store `billing`, `variants`, `projections` and `type: 'own_routes'`. The evaluator reads the `ModulesConfig` of nexo-app/types/modules.types.ts:313-341 instead, which has `payments`, `trackByVariant`, `showProjections` and `type: 'own_fleet'`. `AppConfig.DefaultConfigsNotModulesConfig` and `AuthActions.OnboardedBusinessModules` state the consequences the model can prove. The modelled evaluator (`isModuleEnabled`) never reads the billing settings of a new business. The hook `useModuleEnabled` (nexo-app/hooks/use-user.tsx:93-96) does read `modules.billing.enabled`; that hook is outside this model. Payments are on only through their industry default. A distributor's stored `deliveries.enabled = true` has no effect on the free plan.
