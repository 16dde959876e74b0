/** Industry verticals and the JSON values that per-module settings hold (types/app.types.ts). */
module AppTypes {
  import opened Wrappers

  /** `IndustryType`: the four business verticals. */
  datatype Industry = Distributor | Retail | Grocery | Service

  /** The string under which an industry is stored and sent in forms. */
  function IndustryKey(i: Industry): string {
    match i
    case Distributor => "distributor"
    case Retail => "retail"
    case Grocery => "grocery"
    case Service => "service"
  }

  /** Reads an industry back from its stored string; any other string is no industry. */
  function ParseIndustry(s: string): (r: Option<Industry>)
    ensures r.Some? ==> IndustryKey(r.value) == s
  {
    if s == "distributor" then Some(Distributor)
    else if s == "retail" then Some(Retail)
    else if s == "grocery" then Some(Grocery)
    else if s == "service" then Some(Service)
    else None
  }

  lemma ParseIndustryKey(i: Industry)
    ensures ParseIndustry(IndustryKey(i)) == Some(i)
  {
  }

  /** Parsing succeeds exactly on the four industry keys. */
  lemma ParseIndustryExact(s: string)
    ensures ParseIndustry(s).Some? <==> s in {"distributor", "retail", "grocery", "service"}
  {
  }

  /** A JSON value as stored in a business configuration document. */
  datatype Json =
    | JBool(b: bool)
    | JNum(n: int)
    | JStr(s: string)
    | JList(items: seq<Json>)
    | JObject(fields: map<string, Json>)

  /** `IndustryInfo` without its icon component. */
  datatype IndustryInfo = IndustryInfo(
    id: Industry,
    name: string,
    description: string,
    color: string,
    bgColor: string,
    borderColor: string)
}
