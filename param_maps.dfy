/**
 * The per-provider rename tables: generic field name -> provider argument
 * name, in the order of the dict literals that define them. The second
 * group is the copy kept in the project template.
 */
module ParamMaps {

  type ParamMap = seq<(string, string)>

  const OPENAI_PARAM_MAP: ParamMap := [
    ("api_key", "openai_api_key"),
    ("base_url", "openai_api_base"),
    ("proxy", "openai_proxy"),
    ("organization", "openai_organization")
  ]

  const AZURE_OPENAI_PARAM_MAP: ParamMap := [
    ("base_url", "azure_endpoint"),
    ("model", "azure_deployment"),
    ("api_version", "api_version"),
    ("api_key", "api_key"),
    ("proxy", "openai_proxy"),
    ("organization", "openai_organization")
  ]

  const GEMINI_PARAM_MAP: ParamMap := [
    ("api_key", "google_api_key"),
    ("timeout", "request_timeout")
  ]

  const BEDROCK_PARAM_MAP: ParamMap := [
    ("model", "model_id"),
    ("base_url", "endpoint_url"),
    ("timeout", "client_config")
  ]

  const XAI_PARAM_MAP: ParamMap := [
    ("api_key", "xai_api_key"),
    ("base_url", "xai_api_base")
  ]

  const CLAUDE_PARAM_MAP: ParamMap := [
    ("timeout", "default_request_timeout"),
    ("proxy", "anthropic_proxy"),
    ("base_url", "anthropic_api_url"),
    ("api_key", "api_key")
  ]

  // The project template's copy, which defines only these three tables.

  const TEMPLATE_CLAUDE_PARAM_MAP: ParamMap := [
    ("timeout", "default_request_timeout"),
    ("proxy", "anthropic_proxy"),
    ("base_url", "anthropic_api_url"),
    ("api_key", "api_key")
  ]

  const TEMPLATE_AZURE_OPENAI_PARAM_MAP: ParamMap := [
    ("base_url", "azure_endpoint"),
    ("model", "azure_deployment"),
    ("api_version", "api_version"),
    ("api_key", "api_key"),
    ("proxy", "openai_proxy"),
    ("organization", "openai_organization")
  ]

  const TEMPLATE_XAI_PARAM_MAP: ParamMap := [
    ("api_key", "xai_api_key"),
    ("base_url", "xai_api_base")
  ]

  /**
   * Two different entries never share a source or a target, and no entry's
   * target is another entry's source. An entry may map a name to itself.
   */
  predicate Disjoint(table: ParamMap) {
    table == [] || (Apart(table[0], table[1..]) && Disjoint(table[1..]))
  }

  /** Entry `e` shares no source or target with any entry of `rest`, in either direction. */
  predicate Apart(e: (string, string), rest: ParamMap)
    ensures Apart(e, rest) <==> forall f | f in rest :: e.0 != f.0 && e.1 != f.1 && e.1 != f.0 && f.1 != e.0
  {
    rest == [] ||
    (e.0 != rest[0].0 && e.1 != rest[0].1 && e.1 != rest[0].0 && rest[0].1 != e.0 && Apart(e, rest[1..]))
  }

  /** Every name a table mentions, as a source or as a target. */
  function Mentioned(table: ParamMap): (names: set<string>)
    ensures forall e | e in table :: e.0 in names && e.1 in names
  {
    if table == [] then {} else {table[0].0, table[0].1} + Mentioned(table[1..])
  }

  /** The entry through which a table mentions `k`. */
  lemma {:induction false} MentionedBy(table: ParamMap, k: string) returns (e: (string, string))
    requires k in Mentioned(table)
    ensures e in table && (k == e.0 || k == e.1)
  {
    if k == table[0].0 || k == table[0].1 {
      e := table[0];
    } else {
      e := MentionedBy(table[1..], k);
    }
  }

  /** Every production table satisfies Disjoint, so neither remap variant depends on its order. */
  lemma ProductionTablesDisjoint()
    ensures Disjoint(OPENAI_PARAM_MAP) && Disjoint(AZURE_OPENAI_PARAM_MAP)
    ensures Disjoint(GEMINI_PARAM_MAP) && Disjoint(BEDROCK_PARAM_MAP)
    ensures Disjoint(XAI_PARAM_MAP) && Disjoint(CLAUDE_PARAM_MAP)
  {
    OpenAITableDisjoint();
    AzureTableDisjoint();
    GeminiTableDisjoint();
    BedrockTableDisjoint();
    XaiTableDisjoint();
    ClaudeTableDisjoint();
  }

  lemma OpenAITableDisjoint()
    ensures Disjoint(OPENAI_PARAM_MAP)
  {
  }

  lemma AzureTableDisjoint()
    ensures Disjoint(AZURE_OPENAI_PARAM_MAP)
  {
    AzureDisjoint(AZURE_OPENAI_PARAM_MAP);
  }

  /** The Azure table, passed as a parameter so that Disjoint is not unrolled on the literal. */
  lemma AzureDisjoint(t: ParamMap)
    requires t == AZURE_OPENAI_PARAM_MAP
    ensures Disjoint(t)
  {
    AzureEntryApart(t, 0);
    AzureEntryApart(t, 1);
    AzureEntryApart(t, 2);
    AzureEntryApart(t, 3);
    AzureEntryApart(t, 4);
    AzureEntryApart(t, 5);
    DisjointFromApart(t);
  }

  /** Entry `i` of the Azure table shares no name with any later entry. */
  lemma AzureEntryApart(t: ParamMap, i: nat)
    requires t == AZURE_OPENAI_PARAM_MAP && i < |t|
    ensures Apart(t[i], t[i + 1..])
  {
    // the two pairs of names of equal length differ at a known position
    assert "model"[0] != "proxy"[0];
    assert "organization"[1] != "openai_proxy"[1];
  }

  /** A table is disjoint when each entry is apart from all the entries after it. */
  lemma {:induction false} DisjointFromApart(table: ParamMap)
    requires forall i | 0 <= i < |table| :: Apart(table[i], table[i + 1..])
    ensures Disjoint(table)
    decreases |table|
  {
    if table != [] {
      var rest := table[1..];
      forall i | 0 <= i < |rest|
        ensures Apart(rest[i], rest[i + 1..])
      {
        assert rest[i] == table[i + 1] && rest[i + 1..] == table[i + 2..];
      }
      DisjointFromApart(rest);
      assert Apart(table[0], table[1..]);
    }
  }

  lemma GeminiTableDisjoint()
    ensures Disjoint(GEMINI_PARAM_MAP)
  {
  }

  lemma BedrockTableDisjoint()
    ensures Disjoint(BEDROCK_PARAM_MAP)
  {
  }

  lemma XaiTableDisjoint()
    ensures Disjoint(XAI_PARAM_MAP)
  {
  }

  lemma ClaudeTableDisjoint()
    ensures Disjoint(CLAUDE_PARAM_MAP)
  {
  }

  /** The template copy agrees entry for entry with the main tables. */
  lemma TemplateTablesAgree()
    ensures TEMPLATE_CLAUDE_PARAM_MAP == CLAUDE_PARAM_MAP
    ensures TEMPLATE_AZURE_OPENAI_PARAM_MAP == AZURE_OPENAI_PARAM_MAP
    ensures TEMPLATE_XAI_PARAM_MAP == XAI_PARAM_MAP
  {
  }
}
