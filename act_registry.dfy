/** The registry of acts and rules an audit can check against
    (src/data/actRegistry.js): the fixed table, and the lookups by type and by
    id that the pages use. */
module ActRegistry {
  import opened Common

  /** One row of a checklist file as loaded from JSON: its `audit_item_id`,
      its `id` if it has one, and its other fields. */
  datatype RawItem = RawItem(auditItemId: Option<string>, id: Option<string>, rest: seq<(string, string)>)

  /** An entry of `AVAILABLE_ACTS`. Its `type` is a string: `'act'` or
      `'rules'` in the table, anything in a query. */
  datatype Act = Act(
    id: string,
    name: string,
    description: string,
    table: string,
    data: seq<RawItem>,
    shortName: string,
    year: int,
    actType: string)

  /** What identifies an entry: its id and its type. */
  datatype ActRow = ActRow(id: string, actType: string)

  /** The other fields of an entry: its texts, checklist table and year. */
  datatype ActText = ActText(name: string, description: string, table: string, shortName: string, year: int)

  /** The fifteen entries in registry order: id and type. */
  const ActRows: seq<ActRow> := [
    ActRow("code_on_wages_2019", "act"),
    ActRow("code_on_social_security_2020", "act"),
    ActRow("code_on_occupational_safety_2020", "act"),
    ActRow("code_on_industrial_relations_2020", "act"),
    ActRow("factories_act_1948", "act"),
    ActRow("child_labour_act_1986", "act"),
    ActRow("sexual_harassment_act_2013", "act"),
    ActRow("water_act_1974", "act"),
    ActRow("air_act_1981", "act"),
    ActRow("environment_protection_act_1986", "act"),
    ActRow("hazardous_waste_rules_2016", "rules"),
    ActRow("maharashtra_labour_welfare_fund_act_1953", "act"),
    ActRow("maharashtra_factories_rules_1963", "rules"),
    ActRow("maharashtra_manual_labour_act_1969", "act"),
    ActRow("maharashtra_fire_safety_act_2006", "act")]

  /** The other fields of each entry, by id. */
  const ActTexts: map<string, ActText> := map[
    "code_on_wages_2019" := ActText("The Code on Wages, 2019", "Comprehensive law for wage standards, equal remuneration, payment regulations, and minimum wages", "code_on_wages_checklist", "Code on Wages", 2019),
    "code_on_social_security_2020" := ActText("The Code on Social Security, 2020", "Consolidates laws related to EPF, ESI, gratuity, maternity benefits, and social security schemes", "code_on_social_security_checklist", "Social Security Code", 2020),
    "code_on_occupational_safety_2020" := ActText("The Occupational Safety, Health and Working Conditions Code, 2020", "Consolidates laws on workplace safety, health, and working conditions for all establishments", "code_on_occupational_safety_checklist", "OSH Code", 2020),
    "code_on_industrial_relations_2020" := ActText("The Industrial Relations Code, 2020", "Consolidates laws relating to trade unions, industrial disputes, and employment conditions", "code_on_industrial_relations_checklist", "IR Code", 2020),
    "factories_act_1948" := ActText("The Factories Act, 1948", "Central Act for factory safety, health, welfare, and working conditions", "factories_act_checklist", "Factories Act", 1948),
    "child_labour_act_1986" := ActText("The Child and Adolescent Labour (Prohibition and Regulation) Act, 1986", "Prohibits employment of children below 14 years and regulates working conditions of adolescents", "child_labour_act_checklist", "Child Labour Act", 1986),
    "sexual_harassment_act_2013" := ActText("The Sexual Harassment of Women at Workplace (Prevention, Prohibition and Redressal) Act, 2013", "Provides protection against sexual harassment of women at workplace and prevention mechanisms", "sexual_harassment_act_checklist", "POSH Act", 2013),
    "water_act_1974" := ActText("The Water (Prevention and Control of Pollution) Act, 1974", "Prevention and control of water pollution; regulates discharge of effluents into water bodies", "water_act_checklist", "Water Act", 1974),
    "air_act_1981" := ActText("The Air (Prevention and Control of Pollution) Act, 1981", "Prevention, control and abatement of air pollution; regulates emissions from industries", "air_act_checklist", "Air Act", 1981),
    "environment_protection_act_1986" := ActText("The Environment (Protection) Act, 1986", "Umbrella legislation for environmental protection and regulation of pollution", "environment_protection_act_checklist", "EPA", 1986),
    "hazardous_waste_rules_2016" := ActText("Hazardous and Other Wastes (Management and Transboundary Movement) Rules, 2016", "Regulation of hazardous waste generation, collection, storage, transportation, and disposal", "hazardous_waste_rules_checklist", "Hazardous Waste Rules", 2016),
    "maharashtra_labour_welfare_fund_act_1953" := ActText("The Maharashtra Labour Welfare Fund Act, 1953", "State-level welfare fund for labour welfare activities; contribution requirements", "maharashtra_labour_welfare_fund_checklist", "MH Labour Welfare Fund", 1953),
    "maharashtra_factories_rules_1963" := ActText("Maharashtra Factories Rules, 1963", "State-specific rules for Maharashtra factories under the Factories Act", "maharashtra_factories_rules_checklist", "MH Factory Rules", 1963),
    "maharashtra_manual_labour_act_1969" := ActText("The Maharashtra Mathadi, Hamal and Other Manual Workers (Regulation of Employment and Welfare) Act, 1969", "Regulation of employment and welfare of manual workers in Maharashtra", "maharashtra_manual_labour_act_checklist", "MH Manual Workers Act", 1969),
    "maharashtra_fire_safety_act_2006" := ActText("The Maharashtra Fire Prevention and Life Safety Measures Act, 2006", "Fire prevention, life safety measures, and fire fighting installations in buildings", "maharashtra_fire_safety_act_checklist", "MH Fire Safety Act", 2006)]

  function TextOf(texts: map<string, ActText>, id: string): ActText
  {
    if id in texts then texts[id] else ActText("", "", "", "", 0)
  }

  function DataOf(data: map<string, seq<RawItem>>, id: string): seq<RawItem>
  {
    if id in data then data[id] else []
  }

  /** `AVAILABLE_ACTS` for some texts and checklist files. The checklist JSON
      files are inputs of the model; the facts below hold for any of them. */
  function RegistryWith(texts: map<string, ActText>, data: map<string, seq<RawItem>>): (r: seq<Act>)
    ensures |r| == |ActRows|
    ensures forall i :: 0 <= i < |r| ==>
      r[i].id == ActRows[i].id && r[i].actType == ActRows[i].actType && r[i].data == DataOf(data, ActRows[i].id)
  {
    seq(|ActRows|, i requires 0 <= i < |ActRows| =>
      var row := ActRows[i];
      var text := TextOf(texts, row.id);
      Act(row.id, text.name, text.description, text.table, DataOf(data, row.id), text.shortName, text.year, row.actType))
  }

  function Ids(acts: seq<Act>): (r: seq<string>)
    ensures |r| == |acts|
    ensures forall i :: 0 <= i < |acts| ==> r[i] == acts[i].id
  {
    seq(|acts|, i requires 0 <= i < |acts| => acts[i].id)
  }

  // ---------------------------------------------------------------------------
  // Lookups
  // ---------------------------------------------------------------------------

  function OfType(actType: string): Act -> bool
  {
    (a: Act) => a.actType == actType
  }

  /** `getActsByType(type)`: the entries of that type, in registry order. */
  function GetActsByType(acts: seq<Act>, actType: string): (r: seq<Act>)
    ensures |r| == Count(acts, OfType(actType))
    ensures forall a :: a in r <==> a in acts && a.actType == actType
    ensures exists idx :: SelectsInOrder(acts, OfType(actType), r, idx)
  {
    FilterMembers(acts, OfType(actType));
    FilterInOrder(acts, OfType(actType));
    Filter(acts, OfType(actType))
  }

  /** `getAllActs()`. */
  function GetAllActs(acts: seq<Act>): (r: seq<Act>)
    ensures forall a :: a in r <==> a in acts && a.actType == "act"
  {
    GetActsByType(acts, "act")
  }

  /** `getAllRules()`. */
  function GetAllRules(acts: seq<Act>): (r: seq<Act>)
    ensures forall a :: a in r <==> a in acts && a.actType == "rules"
  {
    GetActsByType(acts, "rules")
  }

  /** `getActById(actId)`: the first entry with that id, if any. */
  function GetActById(acts: seq<Act>, actId: string): (r: Option<Act>)
    ensures r.Some? ==> r.value in acts && r.value.id == actId
    ensures r.None? <==> forall i :: 0 <= i < |acts| ==> acts[i].id != actId
    ensures r.Some? ==> exists i :: 0 <= i < |acts| && acts[i] == r.value && forall j :: 0 <= j < i ==> acts[j].id != actId
  {
    if acts == [] then None
    else if acts[0].id == actId then Some(acts[0])
    else
      var r := GetActById(acts[1..], actId);
      if r.Some? then
        var i :| 0 <= i < |acts[1..]| && acts[1..][i] == r.value && forall j :: 0 <= j < i ==> acts[1..][j].id != actId;
        assert acts[i + 1] == r.value;
        assert forall j :: 0 <= j < i + 1 ==> acts[j].id != actId by {
          forall j | 0 <= j < i + 1 ensures acts[j].id != actId {
            if j > 0 {
              assert acts[j] == acts[1..][j - 1];
            }
          }
        }
        r
      else
        r
  }

  /** The row as the pages read it: `id` is `audit_item_id`. */
  function Normalize(item: RawItem): (r: RawItem)
    ensures r.auditItemId == item.auditItemId && r.rest == item.rest
    ensures r.id == item.auditItemId
  {
    item.(id := item.auditItemId)
  }

  /** `getActData(actId)`: the entry's checklist rows, normalized; none for an
      unknown id. */
  function GetActData(acts: seq<Act>, actId: string): (r: seq<RawItem>)
    ensures GetActById(acts, actId).None? ==> r == []
    ensures GetActById(acts, actId).Some? ==>
      var rows := GetActById(acts, actId).value.data;
      |r| == |rows| && forall i :: 0 <= i < |rows| ==> r[i] == Normalize(rows[i])
  {
    match GetActById(acts, actId)
    case None => []
    case Some(act) => seq(|act.data|, i requires 0 <= i < |act.data| => Normalize(act.data[i]))
  }

  // ---------------------------------------------------------------------------
  // Properties
  // ---------------------------------------------------------------------------

  /** With distinct ids, looking up an entry's id finds that entry. */
  lemma {:induction false} FindsEachEntry(acts: seq<Act>, i: int)
    requires Distinct(Ids(acts))
    requires 0 <= i < |acts|
    ensures GetActById(acts, acts[i].id) == Some(acts[i])
  {
    if i > 0 {
      assert Ids(acts)[0] != Ids(acts)[i];
      assert Ids(acts[1..]) == Ids(acts)[1..];
      FindsEachEntry(acts[1..], i - 1);
    }
  }

  /** Normalizing twice is normalizing once, so reading an entry's data back
      through `getActData` changes nothing more. */
  lemma NormalizeIdempotent(acts: seq<Act>, actId: string)
    ensures var r := GetActData(acts, actId);
      forall i :: 0 <= i < |r| ==> Normalize(r[i]) == r[i]
  {
  }

  /** When every entry is an act or rules, acts and rules split the registry. */
  lemma ActsAndRulesPartition(acts: seq<Act>)
    requires forall i :: 0 <= i < |acts| ==> acts[i].actType == "act" || acts[i].actType == "rules"
    ensures |GetAllActs(acts)| + |GetAllRules(acts)| == |acts|
    ensures forall a :: a in acts <==> a in GetAllActs(acts) || a in GetAllRules(acts)
  {
    var either := (a: Act) => a.actType == "act" || a.actType == "rules";
    CountDisjoint(acts, OfType("act"), OfType("rules"), either);
    CountAll(acts, either);
  }

  /** The ids of the rows. */
  function RowIds(): (r: seq<string>)
    ensures |r| == |ActRows|
    ensures forall i :: 0 <= i < |ActRows| ==> r[i] == ActRows[i].id
  {
    seq(|ActRows|, i requires 0 <= i < |ActRows| => ActRows[i].id)
  }

  lemma RowIdsDistinct()
    ensures Distinct(RowIds())
  {
  }

  /** The registry's ids are distinct, so every entry is found by its id. */
  lemma RegistryIdsDistinct(texts: map<string, ActText>, data: map<string, seq<RawItem>>)
    ensures Distinct(Ids(RegistryWith(texts, data)))
  {
    RowIdsDistinct();
    assert Ids(RegistryWith(texts, data)) == RowIds();
  }

  /** The eleventh and thirteenth rows, the hazardous waste rules and the
      Maharashtra factories rules, are rules; every other row is an act. */
  lemma RowTypes()
    ensures |ActRows| == 15
    ensures forall i :: 0 <= i < |ActRows| ==> ActRows[i].actType == if i == 10 || i == 12 then "rules" else "act"
  {
  }

  /** Each registry entry is an act or rules: thirteen acts, two rules. */
  lemma RegistryActsAndRules(texts: map<string, ActText>, data: map<string, seq<RawItem>>)
    ensures var r := RegistryWith(texts, data);
      && |GetAllActs(r)| == 13 && |GetAllRules(r)| == 2
      && forall a :: a in r <==> a in GetAllActs(r) || a in GetAllRules(r)
  {
    var r := RegistryWith(texts, data);
    RowTypes();
    ActsAndRulesPartition(r);
    RulesCount(texts, data);
  }

  /** The registry holds exactly two rules. */
  lemma RulesCount(texts: map<string, ActText>, data: map<string, seq<RawItem>>)
    ensures |GetAllRules(RegistryWith(texts, data))| == 2
  {
    var r := RegistryWith(texts, data);
    var rules := OfType("rules");
    RowTypes();
    assert forall i :: 0 <= i < |r| ==> (rules(r[i]) <==> i == 10 || i == 12);
    CountTwo(r, rules, 10, 12);
  }

  /** In the registry, each entry's id finds that entry, and its data is
      the entry's checklist file, normalized. */
  lemma RegistryFindable(texts: map<string, ActText>, data: map<string, seq<RawItem>>, i: int)
    requires 0 <= i < |ActRows|
    ensures var r := RegistryWith(texts, data);
      && GetActById(r, ActRows[i].id) == Some(r[i])
      && |GetActData(r, ActRows[i].id)| == |DataOf(data, ActRows[i].id)|
  {
    RegistryIdsDistinct(texts, data);
    FindsEachEntry(RegistryWith(texts, data), i);
  }
}
