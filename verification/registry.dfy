/** The static table of agents the planners choose from (`AVAILABLE_AGENTS` in the
    decision layer; the master orchestrator's `AGENT_REGISTRY` holds the same
    entries). */
module Registry {
  import opened Wrappers

  datatype AgentSpec = AgentSpec(
    name: string,
    description: string,
    inputRequired: seq<string>,
    outputProvides: seq<string>,
    dependencies: seq<string>)

  const Extractor := "legal_extractor"
  const BriefGenerator := "brief_generator"
  const Normalizer := "citation_normalizer"
  const Retriever := "case_retriever"
  const Comparator := "comparator"

  const ExtractorSpec := AgentSpec(
    "Legal Extractor Agent",
    "Extracts structured legal information from documents",
    ["document_text"],
    ["case_name", "court", "date", "facts", "legal_issues", "holdings", "reasoning", "citations", "disposition"],
    [])

  const BriefGeneratorSpec := AgentSpec(
    "Brief Generator Agent",
    "Generates comprehensive legal briefs from extracted data",
    ["extracted_data"],
    ["issue", "facts", "holding", "reasoning", "key_citations", "word_count", "confidence_score"],
    [Extractor])

  const NormalizerSpec := AgentSpec(
    "Citation Normalizer Agent",
    "Normalizes citations to standard formats (Bluebook, APA, MLA, Chicago)",
    ["citations"],
    ["normalized_citations", "format_used", "total_processed"],
    [Extractor])

  const RetrieverSpec := AgentSpec(
    "Case Retriever Agent",
    "Finds similar cases and legal precedents",
    ["legal_issues", "key_phrases"],
    ["similar_cases", "precedents", "statutes", "relevance_scores"],
    [Extractor])

  const ComparatorSpec := AgentSpec(
    "Comparator Agent",
    "Compares target case with similar cases and highlights similarities",
    ["target_case", "similar_cases"],
    ["similarity_analysis", "conflicting_holdings", "reasoning_comparison"],
    [Extractor, Retriever])

  /** The table in declaration order. */
  const AvailableAgents: seq<(string, AgentSpec)> := [
    (Extractor, ExtractorSpec),
    (BriefGenerator, BriefGeneratorSpec),
    (Normalizer, NormalizerSpec),
    (Retriever, RetrieverSpec),
    (Comparator, ComparatorSpec)]

  /** The agent ids, in table order. */
  const AgentIds: seq<string> := [Extractor, BriefGenerator, Normalizer, Retriever, Comparator]

  /** `agent in AVAILABLE_AGENTS` for a string id. */
  predicate IsAgent(id: string) {
    id in AgentIds
  }

  /** `get_agent_info(agent_id)`, that is `AVAILABLE_AGENTS.get(agent_id)`: the
      registry entry, or `None` for an unknown id. */
  function GetAgentInfo(id: string): (r: Option<AgentSpec>)
    ensures r.Some? <==> IsAgent(id)
  {
    if id == Extractor then Some(ExtractorSpec)
    else if id == BriefGenerator then Some(BriefGeneratorSpec)
    else if id == Normalizer then Some(NormalizerSpec)
    else if id == Retriever then Some(RetrieverSpec)
    else if id == Comparator then Some(ComparatorSpec)
    else None
  }

  /** The dependencies of a known agent, `get_agent_info(id)['dependencies']`; an
      unknown id has none. Written out per id so that it does not unfold the whole
      entries (`DepsMatchTable` ties it to the table). */
  function Deps(id: string): seq<string> {
    if id == BriefGenerator || id == Normalizer || id == Retriever then [Extractor]
    else if id == Comparator then [Extractor, Retriever]
    else []
  }

  /** The dependency lists agree with the registry entries. */
  lemma DepsMatchTable(id: string)
    ensures Deps(id) == match GetAgentInfo(id) case Some(spec) => spec.dependencies case None => []
  {
  }

  /** Lookup agrees with the table: the table lists exactly the known ids, each
      once, and each entry is what lookup returns for its id. */
  lemma LookupMatchesTable()
    ensures |AvailableAgents| == |AgentIds|
    ensures forall i :: 0 <= i < |AvailableAgents| ==> AvailableAgents[i].0 == AgentIds[i]
    ensures forall i :: 0 <= i < |AvailableAgents| ==> GetAgentInfo(AvailableAgents[i].0) == Some(AvailableAgents[i].1)
    ensures forall i, j :: 0 <= i < j < |AgentIds| ==> AgentIds[i] != AgentIds[j]
  {
  }

  /** The dependency relation: the extractor depends on nothing, the comparator on
      the extractor and the retriever, the other three on the extractor alone. */
  lemma DependencyShape()
    ensures Deps(Extractor) == []
    ensures Deps(BriefGenerator) == [Extractor] && Deps(Normalizer) == [Extractor] && Deps(Retriever) == [Extractor]
    ensures Deps(Comparator) == [Extractor, Retriever]
  {
  }

  /** Every dependency named in the table is itself an agent of the table, listed
      before the agent that needs it, so the dependency relation has no cycle. */
  lemma DependenciesPrecede(i: int, d: string)
    requires 0 <= i < |AvailableAgents| && d in AvailableAgents[i].1.dependencies
    ensures exists j :: 0 <= j < i && AvailableAgents[j].0 == d
  {
    assert AvailableAgents[0].0 == Extractor;
    assert AvailableAgents[3].0 == Retriever;
  }
}
