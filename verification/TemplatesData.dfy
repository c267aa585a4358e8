/**
 * The starter templates that ship (backend/app/services/templates_data.py): their segments, titles and
 * labels. The texts of questions and prompts are parameters.
 */
module TemplatesData {
  import opened Templates
  import opened TemplateLaws
  import opened Wrappers

  function TopicDefs(titles: seq<string>, ask: string -> string): seq<TopicDef> {
    seq(|titles|, i requires 0 <= i < |titles| => TopicDef(titles[i], ask(titles[i])))
  }

  function ObjectionDefs(labels: seq<(string, seq<string>)>, ask: string -> string): seq<ObjectionDef> {
    seq(|labels|, i requires 0 <= i < |labels| => ObjectionDef(labels[i].0, ask(labels[i].0), labels[i].1))
  }

  const SAAS_TITLES := ["Product overview", "Pricing & packaging", "Ideal customer profile", "Competitive positioning",
                        "Discovery questions", "Demo flow", "Security & compliance"]

  const SAAS_LABELS := [("Too expensive", ["Enterprise", "Mid-Market", "SMB"]),
                        ("Already using a competitor", ["Enterprise", "Mid-Market"]),
                        ("No budget right now", ["SMB", "Mid-Market"]),
                        ("Need to involve security/IT", ["Enterprise"]),
                        ("Happy with the status quo", ["Enterprise", "Mid-Market", "SMB"])]

  const SMB_TITLES := ["Product in one sentence", "Pricing", "Top use cases", "Fast objection handling"]

  const SMB_LABELS := [("Too expensive", ["SMB"]), ("I'll think about it", ["SMB"]),
                       ("Does it integrate with X?", ["SMB"])]

  /** `get_template`. */
  function GetTemplate(key: string, ask: string -> string): Option<Template> {
    if key == "b2b_saas" then
      Some(Template(["Enterprise", "Mid-Market", "SMB"], TopicDefs(SAAS_TITLES, ask), ObjectionDefs(SAAS_LABELS, ask)))
    else if key == "smb_velocity" then
      Some(Template(["SMB"], TopicDefs(SMB_TITLES, ask), ObjectionDefs(SMB_LABELS, ask)))
    else None
  }

  /** The names can be told apart by their lengths or first letters. */
  predicate ToldApart(names: seq<string>) {
    forall i, j | 0 <= i < j < |names| ::
      |names[i]| != |names[j]| || (names[i] != "" && names[j] != "" && names[i][0] != names[j][0])
  }

  lemma {:induction false} ToldApartAreDistinct(existing: set<string>, names: seq<string>)
    requires ToldApart(names)
    ensures MissingAreDistinct(existing, names)
  {
  }

  lemma {:induction false} SaasTitlesToldApart()
    ensures ToldApart(SAAS_TITLES)
  {
  }

  lemma {:induction false} SmbTitlesToldApart()
    ensures ToldApart(SMB_TITLES)
  {
  }

  function Firsts(labels: seq<(string, seq<string>)>): seq<string> {
    seq(|labels|, i requires 0 <= i < |labels| => labels[i].0)
  }

  lemma {:induction false} SaasLabelsToldApart()
    ensures ToldApart(Firsts(SAAS_LABELS))
  {
  }

  lemma {:induction false} SmbLabelsToldApart()
    ensures ToldApart(Firsts(SMB_LABELS))
  {
  }

  /** No shipped template repeats a title or a label. */
  lemma {:induction false} ShippedAreDistinct(key: string, ask: string -> string, existing: set<string>)
    requires GetTemplate(key, ask).Some?
    ensures var tpl := GetTemplate(key, ask).value;
            MissingAreDistinct(existing, Titles(tpl.topics)) && MissingAreDistinct(existing, Labels(tpl.objections))
  {
    SaasTitlesToldApart();
    SmbTitlesToldApart();
    SaasLabelsToldApart();
    SmbLabelsToldApart();
    NamesOfDefs(SAAS_TITLES, SAAS_LABELS, ask);
    NamesOfDefs(SMB_TITLES, SMB_LABELS, ask);
    ToldApartAreDistinct(existing, SAAS_TITLES);
    ToldApartAreDistinct(existing, SMB_TITLES);
    ToldApartAreDistinct(existing, Firsts(SAAS_LABELS));
    ToldApartAreDistinct(existing, Firsts(SMB_LABELS));
  }

  lemma {:induction false} NamesOfDefs(titles: seq<string>, labels: seq<(string, seq<string>)>, ask: string -> string)
    ensures Titles(TopicDefs(titles, ask)) == titles && Labels(ObjectionDefs(labels, ask)) == Firsts(labels)
  {
  }

  /** So every template the endpoint accepts keeps the segments, topics and objections of a tenant unique. */
  lemma {:induction false} ShippedKeepUnique(t: Tables, tenant: Uuid, key: string, ask: string -> string)
    requires GetTemplate(key, ask).Some?
    requires UniqueNames(t.segments, tenant) && UniqueTitles(t.topics, tenant) && UniqueLabels(t.objections, tenant)
    ensures var after := Apply(t, tenant, GetTemplate(key, ask).value);
            UniqueNames(after.segments, tenant) && UniqueTitles(after.topics, tenant)
            && UniqueLabels(after.objections, tenant)
  {
    var tpl := GetTemplate(key, ask).value;
    ShippedAreDistinct(key, ask, TitlesOf(t.topics, tenant));
    ShippedAreDistinct(key, ask, LabelsOf(t.objections, tenant));
    ApplyShape(t, tenant, tpl);
    SegmentsStayUnique(t.segments, tenant, tpl.segments, t.nextId);
    TopicsStayUniqueIff(t, tenant, tpl);
    ObjectionsStayUniqueIff(t, tenant, tpl);
  }
}
