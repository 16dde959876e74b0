/** Display data of the four industries: their names, with a fallback for anything else,
    and the cards shown during onboarding (lib/industries.ts). */
module Industries {
  import opened Wrappers
  import opened AppTypes
  import opened Seqs

  /** `INDUSTRY_NAMES`. */
  function IndustryName(i: Industry): string {
    match i
    case Distributor => "Distribuidora"
    case Retail => "Tienda / Retail"
    case Grocery => "Almacen / Kiosco"
    case Service => "Servicios"
  }

  const Fallback := "Negocio"

  /** `getIndustryName`: `'Negocio'` for a missing or empty argument, the record's name for an
      industry key, and `'Negocio'` again for any other string. */
  function GetIndustryName(industry: Option<string>): string {
    if industry.None? || industry.value == "" then Fallback
    else
      match ParseIndustry(industry.value)
      case Some(i) => IndustryName(i)
      case None => Fallback
  }

  /** The three cases of `getIndustryName`. */
  lemma GetIndustryNameCases(industry: Option<string>)
    ensures industry.None? || industry == Some("") ==> GetIndustryName(industry) == Fallback
    ensures forall i :: industry == Some(IndustryKey(i)) ==> GetIndustryName(industry) == IndustryName(i)
    ensures industry.Some? && ParseIndustry(industry.value).None? ==> GetIndustryName(industry) == Fallback
  {
    forall i | industry == Some(IndustryKey(i)) ensures GetIndustryName(industry) == IndustryName(i) {
      ParseIndustryKey(i);
    }
  }

  /** No industry is called `'Negocio'`, so the fallback is never mistaken for a name. */
  lemma FallbackIsNoName(i: Industry)
    ensures IndustryName(i) != Fallback
  {
  }

  /** `INDUSTRIES`, without the icons. */
  const IndustryCards: seq<IndustryInfo> := [
    IndustryInfo(Distributor, "Distribuidora", "Bebidas, alimentos, productos mayoristas",
      "text-blue-500", "bg-blue-500/10 hover:bg-blue-500/20", "border-blue-500"),
    IndustryInfo(Retail, "Tienda / Retail", "Ropa, accesorios, productos al por menor",
      "text-purple-500", "bg-purple-500/10 hover:bg-purple-500/20", "border-purple-500"),
    IndustryInfo(Grocery, "Almacen / Kiosco", "Comercio de barrio, productos variados",
      "text-green-500", "bg-green-500/10 hover:bg-green-500/20", "border-green-500"),
    IndustryInfo(Service, "Servicios", "Lavanderia, taller, servicios profesionales",
      "text-orange-500", "bg-orange-500/10 hover:bg-orange-500/20", "border-orange-500")]

  /** The position of an industry's card. */
  function CardIndex(i: Industry): (k: nat)
    ensures k < |IndustryCards| && IndustryCards[k].id == i
  {
    match i
    case Distributor => 0
    case Retail => 1
    case Grocery => 2
    case Service => 3
  }

  /** `getIndustryById`: `INDUSTRIES.find((industry) => industry.id === id)`. */
  function GetIndustryById(id: Industry): Option<IndustryInfo> {
    FindFirst(IndustryCards, (c: IndustryInfo) => c.id == id)
  }

  /** Each card has its own industry. */
  lemma CardIdsDistinct(j: nat, k: nat)
    requires j < |IndustryCards| && k < |IndustryCards|
    requires IndustryCards[j].id == IndustryCards[k].id
    ensures j == k
  {
  }

  /** An industry's card is the only card with that industry. */
  lemma CardUnique(id: Industry, c: IndustryInfo)
    requires c in IndustryCards && c.id == id
    ensures c == IndustryCards[CardIndex(id)]
  {
    var k :| 0 <= k < |IndustryCards| && IndustryCards[k] == c;
    CardIdsDistinct(k, CardIndex(id));
  }

  /** Every industry has a card, and the lookup finds it. */
  lemma GetIndustryByIdFinds(id: Industry)
    ensures GetIndustryById(id) == Some(IndustryCards[CardIndex(id)])
  {
    var p := (c: IndustryInfo) => c.id == id;
    assert p(IndustryCards[CardIndex(id)]);
    var r := GetIndustryById(id);
    CardUnique(id, r.value);
  }

  /** The name on each card is the name `INDUSTRY_NAMES` gives. */
  lemma CardNamesAreIndustryNames(id: Industry)
    ensures IndustryCards[CardIndex(id)].name == IndustryName(id)
  {
  }
}
