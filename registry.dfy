/** The module registry `MODULES` and its lookups (lib/modules.ts). */
module ModuleRegistry {
  import opened Wrappers
  import opened AppTypes
  import opened ModuleTypes
  import opened Seqs

  // `MODULES`, written column by column: one function per field of `ModuleMetadata`, giving
  // that field of each entry. Chat, TelegramBot and VoiceInput have no entry; the value the
  // columns give them is never read, because `Registry` answers None for them.

  /** The identifiers that have an entry in `MODULES`. */
  predicate Registered(id: ModuleId) {
    id != Chat && id != TelegramBot && id != VoiceInput
  }

  /** The `name` field. */
  function ModuleName(id: ModuleId): string {
    match id
    case Dashboard => "Dashboard"
    case Products => "Productos"
    case Customers => "Clientes"
    case Settings => "Configuración"
    case Stock => "Inventario"
    case Orders => "Pedidos"
    case Payments => "Cobros"
    case Deliveries => "Entregas"
    case Variants => "Variantes"
    case TieredPricing => "Precios Escalonados"
    case Reports => "Reportes"
    case RecurringOrders => "Pedidos Recurrentes"
    case RouteOptimization => "Optimización de Rutas"
    case GooglePlaces => "Google Places"
    case InventoryAi => "Inventario Inteligente"
    case MultiWarehouse => "Multi-Depósito"
    case AdvancedAnalytics => "Analytics Avanzado"
    case ApiAccess => "Acceso API"
    case WhiteLabel => "Marca Blanca"
    case TeamManagement => "Gestión de Equipo"
    case AuditLog => "Registro de Auditoría"
    case _ => ""
  }

  /** The `description` field: display text, which no logic reads and which is therefore
      kept out of `Entry`. */
  function ModuleDescription(id: ModuleId): string {
    match id
    case Dashboard => "Vista principal con métricas y resumen del negocio"
    case Products => "Catálogo de productos y servicios"
    case Customers => "Gestión de clientes y contactos"
    case Settings => "Configuración del negocio y preferencias"
    case Stock => "Control de stock y movimientos de mercadería"
    case Orders => "Gestión de pedidos y ventas"
    case Payments => "Registro de pagos y cuenta corriente"
    case Deliveries => "Gestión de entregas y logística"
    case Variants => "Productos con variantes (talle, color, etc.)"
    case TieredPricing => "Precios por cantidad (mayorista)"
    case Reports => "Informes de ventas, stock y clientes"
    case RecurringOrders => "\"Lo de siempre\" - Pedidos que se repiten"
    case RouteOptimization => "Optimiza rutas de entrega con IA"
    case GooglePlaces => "Busca clientes cercanos y autocompletado de direcciones"
    case InventoryAi => "Predicción de stock y sugerencias de reposición"
    case MultiWarehouse => "Gestiona stock en múltiples ubicaciones"
    case AdvancedAnalytics => "Dashboards personalizados y métricas avanzadas"
    case ApiAccess => "API REST para integraciones externas"
    case WhiteLabel => "Personaliza colores, logo y dominio"
    case TeamManagement => "Roles personalizados y permisos avanzados"
    case AuditLog => "Historial detallado de todas las acciones"
    case _ => ""
  }

  /** The `tier` field. */
  function ModuleTier(id: ModuleId): Tier {
    match id
    case Stock | Orders | Payments => FreeTier
    case Deliveries | Variants | TieredPricing | Reports | RecurringOrders => ProTier
    case RouteOptimization | GooglePlaces | InventoryAi | MultiWarehouse | AdvancedAnalytics => BusinessTier
    case ApiAccess | WhiteLabel | TeamManagement | AuditLog => EnterpriseTier
    case _ => CoreTier
  }

  /** The `category` field. */
  function ModuleCategory(id: ModuleId): Category {
    match id
    case Stock | Variants | MultiWarehouse => Inventory
    case Orders | Payments | TieredPricing | RecurringOrders => Commerce
    case Deliveries => Logistics
    case Reports | AdvancedAnalytics => Analytics
    case RouteOptimization | InventoryAi => Ai
    case GooglePlaces | ApiAccess | WhiteLabel => Integration
    case _ => CoreCategory
  }

  /** The `defaultEnabled` field: `true`, `false` or a list of industries. */
  function DefaultRuleOf(id: ModuleId): DefaultRule {
    match id
    case Dashboard | Products | Customers | Settings | Payments => AllIndustries
    case Stock => OnlyIndustries([Distributor, Retail, Grocery])
    case Orders => OnlyIndustries([Distributor, Retail, Service])
    case Deliveries | TieredPricing | RecurringOrders => OnlyIndustries([Distributor])
    case Variants => OnlyIndustries([Retail])
    case _ => NoIndustries
  }

  /** The `canDisable` field. */
  function CanDisable(id: ModuleId): bool {
    match id
    case Dashboard | Products | Customers | Settings => false
    case _ => true
  }

  /** The `dependencies` field. */
  function Dependencies(id: ModuleId): seq<ModuleId> {
    match id
    case Deliveries | RecurringOrders => [Orders]
    case Variants | InventoryAi | MultiWarehouse => [Stock]
    case RouteOptimization => [Deliveries]
    case _ => []
  }

  /** The `requiredBy` field. */
  function RequiredBy(id: ModuleId): seq<ModuleId> {
    match id
    case Stock => [InventoryAi, MultiWarehouse]
    case Orders => [Deliveries, RecurringOrders]
    case Deliveries => [RouteOptimization]
    case _ => []
  }

  /** The `badge` field. */
  function Badge(id: ModuleId): Option<string> {
    match id
    case RouteOptimization | InventoryAi => Some("IA")
    case _ => None
  }

  /** The columns of one identifier assembled into a metadata record. */
  function Entry(id: ModuleId): (e: ModuleMetadata)
    ensures e.id == id
  {
    ModuleMetadata(id, ModuleName(id), ModuleTier(id),
      ModuleCategory(id), DefaultRuleOf(id), CanDisable(id), Dependencies(id), RequiredBy(id),
      Badge(id))
  }

  /** `MODULES[id]`: the registry entry of an identifier, None for the three without one. */
  function Registry(id: ModuleId): (r: Option<ModuleMetadata>)
    ensures r.Some? <==> Registered(id)
    ensures r.Some? ==> r.value == Entry(id)
  {
    if Registered(id) then Some(Entry(id)) else None
  }

  /** `getModule`: a pass-through lookup that is undefined (None) for unknown identifiers. */
  function GetModule(id: ModuleId): (r: Option<ModuleMetadata>)
    ensures r.Some? ==> (r.value.id == id && r.value.tier == ModuleTier(id) &&
              r.value.defaultEnabled == DefaultRuleOf(id) && r.value.canDisable == CanDisable(id) &&
              r.value.dependencies == Dependencies(id))
    ensures r.None? <==> id == Chat || id == TelegramBot || id == VoiceInput
  {
    Registry(id)
  }

  /** The identifier of the `i`-th entry of `MODULES`, in declaration order. */
  function DeclaredId(i: nat): (id: ModuleId)
    requires i < 21
    ensures Registered(id)
  {
    if i == 0 then Dashboard
    else if i == 1 then Products
    else if i == 2 then Customers
    else if i == 3 then Settings
    else if i == 4 then Stock
    else if i == 5 then Orders
    else if i == 6 then Payments
    else if i == 7 then Deliveries
    else if i == 8 then Variants
    else if i == 9 then TieredPricing
    else if i == 10 then Reports
    else if i == 11 then RecurringOrders
    else if i == 12 then RouteOptimization
    else if i == 13 then GooglePlaces
    else if i == 14 then InventoryAi
    else if i == 15 then MultiWarehouse
    else if i == 16 then AdvancedAnalytics
    else if i == 17 then ApiAccess
    else if i == 18 then WhiteLabel
    else if i == 19 then TeamManagement
    else AuditLog
  }

  /** The position of a registered identifier in declaration order (21 for the others). */
  function Position(id: ModuleId): nat {
    match id
    case Dashboard => 0
    case Products => 1
    case Customers => 2
    case Settings => 3
    case Stock => 4
    case Orders => 5
    case Payments => 6
    case Deliveries => 7
    case Variants => 8
    case TieredPricing => 9
    case Reports => 10
    case RecurringOrders => 11
    case RouteOptimization => 12
    case GooglePlaces => 13
    case InventoryAi => 14
    case MultiWarehouse => 15
    case AdvancedAnalytics => 16
    case ApiAccess => 17
    case WhiteLabel => 18
    case TeamManagement => 19
    case AuditLog => 20
    case _ => 21
  }

  /** `getAllModules` (`Object.values(MODULES)`): the entries in declaration order. */
  function AllModules(): (r: seq<ModuleMetadata>)
    ensures |r| == 21
  {
    seq(21, i requires 0 <= i < 21 => Entry(DeclaredId(i)))
  }

  /** Declaration order lists every registered identifier exactly once. */
  lemma DeclaredIdPosition(i: nat)
    requires i < 21
    ensures Position(DeclaredId(i)) == i
  {
  }

  lemma PositionDeclared(id: ModuleId)
    requires Registered(id)
    ensures Position(id) < 21 && DeclaredId(Position(id)) == id
  {
  }

  /** Every entry of `getAllModules` is a registry entry. */
  lemma AllModulesSound(m: ModuleMetadata)
    requires m in AllModules()
    ensures Registry(m.id) == Some(m)
  {
    var i :| 0 <= i < 21 && AllModules()[i] == m;
    assert m == Entry(DeclaredId(i));
  }

  /** Every registry entry is in `getAllModules`. */
  lemma AllModulesComplete(m: ModuleMetadata)
    requires Registry(m.id) == Some(m)
    ensures m in AllModules()
  {
    PositionDeclared(m.id);
    assert AllModules()[Position(m.id)] == m;
  }

  /** No identifier appears twice in `getAllModules`. */
  lemma AllModulesDistinct()
    ensures forall i, j :: 0 <= i < j < |AllModules()| ==> AllModules()[i].id != AllModules()[j].id
  {
    forall i, j | 0 <= i < j < 21 ensures AllModules()[i].id != AllModules()[j].id {
      DeclaredIdPosition(i);
      DeclaredIdPosition(j);
    }
  }

  /** `getAllModules` lists exactly the registry's entries, each once. */
  lemma AllModulesAreRegistry(m: ModuleMetadata)
    ensures m in AllModules() <==> Registry(m.id) == Some(m)
    ensures forall i, j :: 0 <= i < j < |AllModules()| ==> AllModules()[i].id != AllModules()[j].id
  {
    if m in AllModules() {
      AllModulesSound(m);
    }
    if Registry(m.id) == Some(m) {
      AllModulesComplete(m);
    }
    AllModulesDistinct();
  }

  /** `getModulesByTier`. */
  function ModulesByTier(t: Tier): (r: seq<ModuleMetadata>)
    ensures forall m :: m in r <==> m in AllModules() && m.tier == t
    ensures IsSubsequence(r, AllModules())
  {
    Filter(AllModules(), (m: ModuleMetadata) => m.tier == t)
  }

  /** `getModulesByCategory`. */
  function ModulesByCategory(c: Category): (r: seq<ModuleMetadata>)
    ensures forall m :: m in r <==> m in AllModules() && m.category == c
    ensures IsSubsequence(r, AllModules())
  {
    Filter(AllModules(), (m: ModuleMetadata) => m.category == c)
  }

  /** `getCoreModules`. */
  function CoreModules(): (r: seq<ModuleMetadata>)
    ensures forall m :: m in r <==> m in AllModules() && m.tier == CoreTier
    ensures IsSubsequence(r, AllModules())
  {
    ModulesByTier(CoreTier)
  }

  /** `getToggleableModules`. */
  function ToggleableModules(): (r: seq<ModuleMetadata>)
    ensures forall m :: m in r <==> m in AllModules() && m.canDisable
    ensures IsSubsequence(r, AllModules())
  {
    Filter(AllModules(), (m: ModuleMetadata) => m.canDisable)
  }

  /** The identifiers `getToggleableModules` lists. */
  predicate Toggleable(id: ModuleId) {
    Registered(id) && CanDisable(id)
  }

  /** The core modules are exactly dashboard, products, customers and settings, and the
      toggleable ones are exactly the registered non-core ones. */
  lemma CoreAndToggleableModules(m: ModuleMetadata)
    ensures m in CoreModules() <==> Registry(m.id) == Some(m) && IsCoreId(m.id)
    ensures m in ToggleableModules() <==> Registry(m.id) == Some(m) && !IsCoreId(m.id)
    ensures m in ToggleableModules() <==> Registry(m.id) == Some(m) && Toggleable(m.id)
  {
    AllModulesAreRegistry(m);
    if Registered(m.id) {
      RegistryWellFormed(m.id);
    }
  }

  /** The registry is well formed: every entry is filed under its own identifier, core tier
      holds exactly when the module cannot be disabled, the core identifiers of the type are
      the core-tier entries, every dependency is registered and of a strictly lower tier, and
      every module a module lists as `requiredBy` does depend on it. */
  lemma RegistryWellFormed(id: ModuleId)
    requires Registered(id)
    ensures ModuleTier(id) == CoreTier <==> !CanDisable(id)
    ensures ModuleTier(id) == CoreTier <==> IsCoreId(id)
    ensures forall d :: d in Dependencies(id) ==>
              Registered(d) && TierRank(ModuleTier(d)) < TierRank(ModuleTier(id))
    ensures forall x :: x in RequiredBy(id) ==> Registered(x) && id in Dependencies(x)
  {
  }

  /** `requiredBy` is not the full inverse of `dependencies`: variants depends on stock but
      stock does not list it. */
  lemma RequiredByIsPartial()
    ensures Stock in Dependencies(Variants) && Variants !in RequiredBy(Stock)
  {
  }
}
