/** The form checks that run before any backend call in the login, sign-up and onboarding
    actions, and the configuration document onboarding stores for a new business
    (actions/auth.ts). */
module AuthActions {
  import opened Wrappers
  import opened AppTypes
  import opened ModuleTypes
  import opened BusinessTypes
  import opened ModuleRegistry
  import opened Entitlement
  import opened AppConfig

  /** A form field as `formData.get(name)` returns it: absent, or a string. */
  type Field = Option<string>

  /** `!field`: an absent field or an empty string. */
  predicate Blank(f: Field) {
    f.None? || f.value == ""
  }

  const LoginRequired := "Email y contraseña son requeridos"
  const SignupRequired := "Todos los campos son requeridos"
  const PasswordsDiffer := "Las contraseñas no coinciden"
  const PasswordTooShort := "La contraseña debe tener al menos 8 caracteres"
  const OnboardingRequired := "Industria y nombre del negocio son requeridos"
  const InvalidIndustry := "Industria no válida"

  /** The check `loginAction` makes before signing in. */
  function LoginValidation(email: Field, password: Field): (r: Outcome)
    ensures r == Pass <==> !Blank(email) && !Blank(password)
    ensures r != Pass ==> r == Fail(LoginRequired)
  {
    if Blank(email) || Blank(password) then Fail(LoginRequired)
    else Pass
  }

  /** The checks `signupAction` makes before signing up, in order: every field present, the
      two passwords equal, the password at least eight characters long. */
  function SignupValidation(name: Field, email: Field, password: Field, confirmPassword: Field): (r: Outcome)
    ensures r == Pass <==>
              !Blank(name) && !Blank(email) && !Blank(password) && !Blank(confirmPassword) &&
              password == confirmPassword && |password.value| >= PasswordMinLength
  {
    if Blank(name) || Blank(email) || Blank(password) || Blank(confirmPassword) then Fail(SignupRequired)
    else if password.value != confirmPassword.value then Fail(PasswordsDiffer)
    else if |password.value| < 8 then Fail(PasswordTooShort)
    else Pass
  }

  /** The first check that fails decides the error: a missing field is reported even when the
      passwords also differ, and a mismatch even when the password is also short. */
  lemma SignupFirstFailure(name: Field, email: Field, password: Field, confirmPassword: Field)
    ensures var missing := Blank(name) || Blank(email) || Blank(password) || Blank(confirmPassword);
            (SignupValidation(name, email, password, confirmPassword) == Fail(SignupRequired) <==> missing) &&
            (SignupValidation(name, email, password, confirmPassword) == Fail(PasswordsDiffer) <==>
               !missing && password != confirmPassword) &&
            (SignupValidation(name, email, password, confirmPassword) == Fail(PasswordTooShort) <==>
               !missing && password == confirmPassword && |password.value| < PasswordMinLength)
  {
  }

  /** Eight characters is the shortest password accepted: eight passes, seven fails. */
  lemma SignupLengthBoundary(name: string, email: string, password: string)
    requires name != "" && email != ""
    ensures |password| == 8 ==>
              SignupValidation(Some(name), Some(email), Some(password), Some(password)) == Pass
    ensures |password| == 7 ==>
              SignupValidation(Some(name), Some(email), Some(password), Some(password)) == Fail(PasswordTooShort)
  {
  }

  /** The industries the onboarding action accepts, written out in the action itself. */
  const OnboardingIndustries: seq<string> := ["distributor", "retail", "grocery", "service"]

  /** The checks `completeOnboardingAction` makes before creating the business: industry and
      name present, then the industry one of the four. */
  function OnboardingValidation(industry: Field, businessName: Field): (r: Outcome)
    ensures r == Pass <==> !Blank(industry) && !Blank(businessName) && IsValidIndustry(industry.value)
    ensures r != Pass ==>
              (r == Fail(OnboardingRequired) <==> Blank(industry) || Blank(businessName)) &&
              (r == Fail(InvalidIndustry) <==> !Blank(industry) && !Blank(businessName))
  {
    if Blank(industry) || Blank(businessName) then Fail(OnboardingRequired)
    else if industry.value !in OnboardingIndustries then
      IsValidIndustryExact(industry.value);
      Fail(InvalidIndustry)
    else
      IsValidIndustryExact(industry.value);
      Pass
  }

  /** The action's own list of industries is `VALID_INDUSTRIES`. */
  lemma OnboardingIndustriesAreValid(s: string)
    ensures s in OnboardingIndustries <==> IsValidIndustry(s)
  {
    IsValidIndustryExact(s);
  }

  /** The local `getDefaultConfig` table, written industry by industry as the action has it. */
  function LocalConfigs(i: Industry): BusinessConfig {
    match i
    case Distributor => BusinessConfig(Some(map[
      "stock" := ModuleSettings(Some(true), map["variants" := JBool(false), "projections" := JBool(true)]),
      "orders" := ModuleSettings(Some(true), map["recurring" := JBool(true), "tiered_pricing" := JBool(true)]),
      "deliveries" := ModuleSettings(Some(true), map["type" := JStr("own_routes")]),
      "billing" := ModuleSettings(Some(true), map["current_account" := JBool(true), "auto_reminders" := JBool(true)])]),
      None, map[])
    case Retail => BusinessConfig(Some(map[
      "stock" := ModuleSettings(Some(true), map["variants" := JBool(true), "projections" := JBool(false)]),
      "orders" := ModuleSettings(Some(true), map["recurring" := JBool(false), "tiered_pricing" := JBool(false)]),
      "deliveries" := ModuleSettings(Some(false), map[]),
      "billing" := ModuleSettings(Some(true), map["current_account" := JBool(true), "auto_reminders" := JBool(true)])]),
      None, map[])
    case Grocery => BusinessConfig(Some(map[
      "stock" := ModuleSettings(Some(true), map["variants" := JBool(false), "projections" := JBool(true)]),
      "orders" := ModuleSettings(Some(false), map[]),
      "deliveries" := ModuleSettings(Some(false), map[]),
      "billing" := ModuleSettings(Some(true), map["current_account" := JBool(true), "auto_reminders" := JBool(false)])]),
      None, map[])
    case Service => BusinessConfig(Some(map[
      "stock" := ModuleSettings(Some(false), map[]),
      "orders" := ModuleSettings(Some(true), map["recurring" := JBool(false), "tiered_pricing" := JBool(false)]),
      "deliveries" := ModuleSettings(Some(false), map[]),
      "billing" := ModuleSettings(Some(true), map["current_account" := JBool(true), "auto_reminders" := JBool(true)])]),
      None, map[])
  }

  /** The local `getDefaultConfig`: `configs[industry] || configs.distributor`. */
  function LocalDefaultConfig(s: string): BusinessConfig {
    match ParseIndustry(s)
    case Some(i) => LocalConfigs(i)
    case None => LocalConfigs(Distributor)
  }

  /** The local table is `DEFAULT_CONFIGS`, entry for entry. */
  lemma LocalConfigsAreDefaultConfigs(i: Industry)
    ensures LocalConfigs(i) == DefaultConfigs(i)
  {
    match i
    case Distributor =>
    case Retail =>
    case Grocery =>
    case Service =>
  }

  /** The local lookup agrees with `getDefaultConfig` of lib/config.ts on every string: each
      valid industry gets its own entry and any other string gets distributor's. */
  lemma LocalDefaultConfigIsGetDefaultConfig(s: string)
    ensures LocalDefaultConfig(s) == GetDefaultConfig(s)
    ensures !IsValidIndustry(s) ==> LocalDefaultConfig(s) == DefaultConfigs(Distributor)
  {
    IsValidIndustryExact(s);
    match ParseIndustry(s)
    case Some(i) => LocalConfigsAreDefaultConfigs(i);
    case None => LocalConfigsAreDefaultConfigs(Distributor);
  }

  /** The configuration document onboarding sends as `p_config`: the local table's entry for
      the industry, once the form checks pass. */
  function OnboardingConfig(industry: Field, businessName: Field): (r: Result<BusinessConfig>)
    ensures r.Success? <==> OnboardingValidation(industry, businessName) == Pass
    ensures r.Failure? ==> OnboardingValidation(industry, businessName) == Fail(r.error)
  {
    match OnboardingValidation(industry, businessName)
    case Fail(e) => Failure(e)
    case Pass => Success(LocalDefaultConfig(industry.value))
  }

  /** The stored document holds nothing but `modules`, and of its four keys three are module
      keys; `billing` is not, so no `payments` entry is stored. */
  lemma OnboardingConfigKeys(i: Industry)
    ensures LocalConfigs(i).subscription.None? && LocalConfigs(i).rest == map[]
    ensures LocalConfigs(i).modules.Some?
    ensures forall k :: k in LocalConfigs(i).modules.value <==>
              k == ModuleKey(Stock) || k == ModuleKey(Orders) || k == ModuleKey(Deliveries) || k == "billing"
    ensures ParseModuleKey("billing").None?
    ensures StoredSettings(LocalConfigs(i), Payments).None?
  {
  }

  /** What a business fresh from onboarding can use, before any subscription is stored: the
      free plan applies, so `payments` is on through its industry default, `stock` and
      `orders` follow their stored flags, and `deliveries` is off even where its stored flag
      is on, because its tier is above free. */
  lemma OnboardedBusinessModules(b: Business)
    requires b.config == LocalConfigs(b.industry)
    ensures IsEnabledFor(b, Payments)
    ensures IsEnabledFor(b, Stock) <==> b.industry != Service
    ensures IsEnabledFor(b, Orders) <==> b.industry != Grocery
    ensures !IsEnabledFor(b, Deliveries)
    ensures b.industry == Distributor ==> StoredSettings(b.config, Deliveries) == Some(ModuleSettings(Some(true), map["type" := JStr("own_routes")]))
  {
    OnboardingConfigKeys(b.industry);
  }
}
