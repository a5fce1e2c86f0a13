/** The brief generator agent (server/agents/brief_generator.py): the input guard,
    the Gemini, Ollama and mock rungs, and the mock brief built from the extracted
    data. Enhancement, scoring and validation are the shared code of `Briefs`
    (with the agent's switches on). */
module BriefGenerator {
  import opened Wrappers
  import opened Values
  import PerceptionLayer
  import Extraction
  import Briefs
  import LegalExtractor
  import PyText

  /** The outcome of one model rung. */
  datatype Step = StepOk(data: Entries, raw: string) | StepError(error: string)

  /** What `generate` answers: the brief with the model that wrote it, or the
      error. */
  datatype Generation =
    | Generated(data: Entries, producer: LegalExtractor.Producer, raw: string)
    | GenerateFailed(error: string)

  const MockResponse := "Mock brief generated for testing purposes"
  const MockConfidence := 75
  const MaxMockItems := 3

  /** `_enhance_brief_data` on a parsed reply, inside a rung's `try`: a dict is
      enhanced (with the key list in the metadata); a list fails on the first
      string index; any other value has no `copy`; a failed score is the `len()`
      of key citations that have none. */
  function EnhanceStep(v: Value, extracted: Entries, show: Value -> string, timestamp: real,
                       raw: string, prefix: string): (r: Step)
    ensures r.StepOk? <==> v.Dict? && Briefs.Enhance(v.entries, extracted, show, timestamp, true).Some?
    ensures r.StepOk? ==> r.data == Briefs.Enhance(v.entries, extracted, show, timestamp, true).value && r.raw == raw
    ensures v.List? ==> r == StepError(prefix + "list indices must be integers or slices, not str")
  {
    if v.List? then StepError(prefix + "list indices must be integers or slices, not str")
    else if !v.Dict? then StepError(prefix + "'" + TypeName(v) + "' object has no attribute 'copy'")
    else
      match Briefs.Enhance(v.entries, extracted, show, timestamp, true)
      case None => StepError(prefix + "object of type '" + TypeName(Find(v.entries, "key_citations").GetOr(Null)) + "' has no len()")
      case Some(brief) => StepOk(brief, raw)
  }

  /** `_generate_with_gemini`: an empty reply, an unparsable or falsy one, and an
      exception each end the rung with their error. The reply text is parsed as
      `_parse_brief_response` does, which is the extractor's parser. */
  function GenerateWithGemini(reply: PerceptionLayer.GeminiReply, extracted: Entries, loads: string -> Option<Value>,
                              show: Value -> string, timestamp: real): (r: Step)
    ensures r.StepOk? <==>
      reply.GeminiText? && reply.text != []
      && LegalExtractor.ParseExtractionResponse(reply.text, loads).Some?
      && Truthy(LegalExtractor.ParseExtractionResponse(reply.text, loads).value)
      && EnhanceStep(LegalExtractor.ParseExtractionResponse(reply.text, loads).value, extracted, show, timestamp, reply.text, "").StepOk?
    ensures r.StepOk? ==> r.raw == reply.text
    ensures reply.GeminiText? && reply.text == [] ==> r == StepError("Empty response from Gemini")
  {
    match reply
    case GeminiRaised(m) => StepError("Gemini brief generation failed: " + m)
    case GeminiText(text) =>
      if text == [] then StepError("Empty response from Gemini")
      else
        match LegalExtractor.ParseExtractionResponse(text, loads)
        case None => StepError("Failed to parse Gemini response")
        case Some(v) =>
          if !Truthy(v) then StepError("Failed to parse Gemini response")
          else EnhanceStep(v, extracted, show, timestamp, text, "Gemini brief generation failed: ")
  }

  /** `_generate_with_ollama`: as the Gemini rung, after a non-200 status, which is
      reported with its code. */
  function GenerateWithOllama(reply: PerceptionLayer.OllamaReply, extracted: Entries, loads: string -> Option<Value>,
                              show: Value -> string, timestamp: real): (r: Step)
    ensures r.StepOk? <==>
      reply.OllamaHttp? && reply.status == 200 && reply.text != []
      && LegalExtractor.ParseExtractionResponse(reply.text, loads).Some?
      && Truthy(LegalExtractor.ParseExtractionResponse(reply.text, loads).value)
      && EnhanceStep(LegalExtractor.ParseExtractionResponse(reply.text, loads).value, extracted, show, timestamp, reply.text, "").StepOk?
    ensures r.StepOk? ==> r.raw == reply.text
    ensures reply.OllamaHttp? && reply.status != 200 ==>
      r == StepError("Ollama API error: " + PyText.IntToString(reply.status))
  {
    match reply
    case OllamaRaised(m) => StepError("Ollama brief generation failed: " + m)
    case OllamaHttp(status, text) =>
      if status != 200 then StepError("Ollama API error: " + PyText.IntToString(status))
      else if text == [] then StepError("Empty response from Ollama")
      else
        match LegalExtractor.ParseExtractionResponse(text, loads)
        case None => StepError("Failed to parse Ollama response")
        case Some(v) =>
          if !Truthy(v) then StepError("Failed to parse Ollama response")
          else EnhanceStep(v, extracted, show, timestamp, text, "Ollama brief generation failed: ")
  }

  // ---------------------------------------------------------------------------
  // The mock brief.

  /** `x[0] if isinstance(x, list) and x else str(x)`, as the f-string shows it. */
  function Lead(v: Value, show: Value -> string): string {
    if v.List? && v.items != [] then AsText(v.items[0], show) else AsText(v, show)
  }

  /** The first `n` items, or all of them when there are fewer. */
  function Front(items: seq<Value>, n: nat): (r: seq<Value>)
    ensures |r| <= n && r <= items
    ensures |items| <= n ==> r == items
    ensures |items| >= n ==> |r| == n
  {
    if |items| <= n then items else items[..n]
  }

  /** The reasoning points: the first three of a non-empty list, else `[str(x)]`. */
  function MockReasoningPoints(reasoning: Value, show: Value -> string): (r: seq<Value>)
    ensures 1 <= |r| <= MaxMockItems
    ensures reasoning.List? && reasoning.items != [] ==> r == Front(reasoning.items, MaxMockItems)
    ensures !(reasoning.List? && reasoning.items != []) ==> r == [Str(AsText(reasoning, show))]
  {
    if reasoning.List? && reasoning.items != [] then Front(reasoning.items, MaxMockItems)
    else [Str(AsText(reasoning, show))]
  }

  /** The key citations: the first three of a list; nothing for any other value. */
  function MockKeyCitations(citations: Value): (r: seq<Value>)
    ensures |r| <= MaxMockItems
    ensures citations.List? ==> r == Front(citations.items, MaxMockItems)
    ensures !citations.List? ==> r == []
  {
    if citations.List? then Front(citations.items, MaxMockItems) else []
  }

  /** The seven entries of the mock draft, in the order the source writes them. */
  function Draft(issue: string, facts: string, holding: string, reasoning: seq<Value>, keyCitations: seq<Value>): Entries {
    [("issue", Str(issue)),
     ("facts", Str(facts)),
     ("holding", Str(holding)),
     ("reasoning", List(reasoning)),
     ("key_citations", List(keyCitations)),
     ("word_count", Int(0)),
     ("confidence_score", Int(MockConfidence))]
  }

  /** The dict `_generate_mock_brief` builds before enhancing it. */
  function MockDraft(extracted: Entries, show: Value -> string): Entries {
    Draft(MockIssue(extracted, show), MockFacts(extracted, show), MockHolding(extracted, show),
          MockReasoningPoints(MockReasoning(extracted), show),
          MockKeyCitations(MockCitations(extracted)))
  }

  /** The case name the mock brief quotes, `Unknown Case` when it is missing. */
  function MockCaseName(extracted: Entries, show: Value -> string): string {
    AsText(Find(extracted, "case_name").GetOr(Str("Unknown Case")), show)
  }

  /** The issue sentence, quoting the first legal issue. */
  function MockIssue(extracted: Entries, show: Value -> string): string {
    var issues := Find(extracted, "legal_issues").GetOr(StrList(["No legal issues identified"]));
    "The main legal question presented in " + MockCaseName(extracted, show) + " is: " + Lead(issues, show)
  }

  /** The facts sentence, quoting the first fact. */
  function MockFacts(extracted: Entries, show: Value -> string): string {
    "The relevant facts of the case are: " + Lead(Find(extracted, "facts").GetOr(StrList(["No facts provided"])), show)
  }

  /** The holding sentence, quoting the first holding. */
  function MockHolding(extracted: Entries, show: Value -> string): string {
    var holdings := Find(extracted, "holdings").GetOr(StrList(["No holdings provided"]));
    "The court's holding in " + MockCaseName(extracted, show) + " was: " + Lead(holdings, show)
  }

  /** The reasoning the mock brief reads, with its placeholder. */
  function MockReasoning(extracted: Entries): Value {
    Find(extracted, "reasoning").GetOr(StrList(["No reasoning provided"]))
  }

  /** The citations the mock brief reads; none when the key is missing. */
  function MockCitations(extracted: Entries): Value {
    Find(extracted, "citations").GetOr(List([]))
  }

  /** `_generate_mock_brief`: the enhanced draft, tagged `mock`; its `except` turns
      a failed enhancement into an error (which `MockBriefShape` rules out). */
  function MockBrief(extracted: Entries, show: Value -> string, timestamp: real): (r: Generation)
    ensures r.Generated? ==> r.producer == LegalExtractor.ByMock && r.raw == MockResponse
  {
    match Briefs.Enhance(MockDraft(extracted, show), extracted, show, timestamp, true)
    case Some(brief) => Generated(brief, LegalExtractor.ByMock, MockResponse)
    case None => GenerateFailed("Mock brief generation failed: object of type 'list' has no len()")
  }

  /** The first letters of the draft's keys, which tell them apart. */
  lemma DraftKeyLetters(issue: string, facts: string, holding: string, reasoning: seq<Value>, keyCitations: seq<Value>)
    ensures var d := Draft(issue, facts, holding, reasoning, keyCitations);
      d[0].0[0] == 'i' && d[1].0[0] == 'f' && d[2].0[0] == 'h' && d[3].0[0] == 'r'
      && d[4].0[0] == 'k' && d[5].0[0] == 'w' && d[6].0[0] == 'c'
  {
  }

  /** The draft's reasoning, key citations and score are found under their keys. */
  lemma DraftFinds(issue: string, facts: string, holding: string, reasoning: seq<Value>, keyCitations: seq<Value>)
    ensures var d := Draft(issue, facts, holding, reasoning, keyCitations);
      Find(d, "reasoning") == Some(List(reasoning))
      && Find(d, "key_citations") == Some(List(keyCitations))
      && Find(d, "confidence_score") == Some(Int(MockConfidence))
  {
    DraftFindAt(issue, facts, holding, reasoning, keyCitations, 3);
    DraftFindAt(issue, facts, holding, reasoning, keyCitations, 4);
    DraftFindAt(issue, facts, holding, reasoning, keyCitations, 6);
  }

  lemma DraftFindAt(issue: string, facts: string, holding: string, reasoning: seq<Value>, keyCitations: seq<Value>, i: nat)
    requires i < 7
    ensures var d := Draft(issue, facts, holding, reasoning, keyCitations);
      Find(d, d[i].0) == Some(d[i].1)
  {
    var d := Draft(issue, facts, holding, reasoning, keyCitations);
    DraftKeyLetters(issue, facts, holding, reasoning, keyCitations);
    FindAt(d, i);
  }

  /** A brief whose own score is a number from 0 to 100 always enhances, and keeps
      that score. */
  lemma EnhanceValidScore(brief: Entries, extracted: Entries, show: Value -> string, timestamp: real)
    requires Find(brief, "confidence_score") == Some(Int(MockConfidence))
    ensures var r := Briefs.Enhance(brief, extracted, show, timestamp, true);
      r.Some? && Find(r.value, "confidence_score") == Some(Int(MockConfidence))
  {
    Briefs.EnhanceScore(brief, extracted, show, timestamp, true);
  }

  /** The mock brief never fails. It keeps at most three reasoning points (a prefix
      of the extracted reasoning when that is a non-empty list) and at most three
      key citations (a prefix of the extracted citations when they are a list),
      scores 75, and counts the words of the draft. */
  lemma MockBriefShape(extracted: Entries, show: Value -> string, timestamp: real)
    ensures var r := MockBrief(extracted, show, timestamp);
      var reasoning := MockReasoning(extracted);
      var citations := MockCitations(extracted);
      r.Generated?
      && Find(r.data, "confidence_score") == Some(Int(MockConfidence))
      && Find(r.data, "reasoning") == Some(List(MockReasoningPoints(reasoning, show)))
      && 1 <= |MockReasoningPoints(reasoning, show)| <= MaxMockItems
      && (reasoning.List? && reasoning.items != [] ==> MockReasoningPoints(reasoning, show) <= reasoning.items)
      && Find(r.data, "key_citations") == Some(List(MockKeyCitations(citations)))
      && |MockKeyCitations(citations)| <= MaxMockItems
      && (citations.List? ==> MockKeyCitations(citations) <= citations.items)
      && Find(r.data, "word_count") == Some(Int(Briefs.WordCount(MockDraft(extracted, show), show)))
  {
    var d := MockDraft(extracted, show);
    DraftFinds(MockIssue(extracted, show), MockFacts(extracted, show), MockHolding(extracted, show), MockReasoningPoints(MockReasoning(extracted), show),
               MockKeyCitations(MockCitations(extracted)));
    EnhanceValidScore(d, extracted, show, timestamp);
    Briefs.EnhanceShape(d, extracted, show, timestamp, true, "reasoning");
    Briefs.EnhanceKeepsCitations(d, extracted, show, timestamp, true);
    Briefs.EnhanceWordCount(d, extracted, show, timestamp, true);
  }

  // ---------------------------------------------------------------------------
  // The ladder.

  /** The two model rungs: Gemini when it is the primary model and set up, then
      Ollama when it is the fallback model and available; `None` when neither was
      tried or neither succeeded. */
  function ModelRungs(cfg: PerceptionLayer.ModelConfig, live: PerceptionLayer.Liveness,
                      gemini: PerceptionLayer.GeminiReply, ollama: PerceptionLayer.OllamaReply,
                      extracted: Entries, loads: string -> Option<Value>, show: Value -> string, timestamp: real): (r: Option<Generation>)
    ensures var g := GenerateWithGemini(gemini, extracted, loads, show, timestamp);
      var o := GenerateWithOllama(ollama, extracted, loads, show, timestamp);
      var geminiOk := cfg.primaryModel == "gemini" && live.geminiModel && g.StepOk?;
      var ollamaOk := cfg.fallbackModel == "ollama" && live.ollamaAvailable && o.StepOk?;
      (r.None? <==> !geminiOk && !ollamaOk)
      && (geminiOk ==> r == Some(Generated(g.data, LegalExtractor.ByGemini, g.raw)))
      && (!geminiOk && ollamaOk ==> r == Some(Generated(o.data, LegalExtractor.ByOllama, o.raw)))
  {
    var first := if cfg.primaryModel == "gemini" && live.geminiModel then GenerateWithGemini(gemini, extracted, loads, show, timestamp) else StepError("");
    if first.StepOk? then Some(Generated(first.data, LegalExtractor.ByGemini, first.raw))
    else
      var second := if cfg.fallbackModel == "ollama" && live.ollamaAvailable then GenerateWithOllama(ollama, extracted, loads, show, timestamp) else StepError("");
      if second.StepOk? then Some(Generated(second.data, LegalExtractor.ByOllama, second.raw))
      else None
  }

  /** `generate(extracted_data)` given the configuration, which backends were set
      up, each backend's reply to the brief prompt, the decoder, `str()` and the
      clock. Falsy data and missing required fields are refused with their
      message; data that is truthy but not a dict fails on `.get`; otherwise the
      first rung that succeeds answers, and the mock brief is the last rung. */
  function Generate(extracted: Value, cfg: PerceptionLayer.ModelConfig, live: PerceptionLayer.Liveness,
                    gemini: PerceptionLayer.GeminiReply, ollama: PerceptionLayer.OllamaReply,
                    loads: string -> Option<Value>, show: Value -> string, timestamp: real): (r: Generation)
    ensures (extracted.Dict? || !Truthy(extracted)) && Briefs.CheckInput(extracted).Some? ==>
      r == GenerateFailed(Briefs.CheckInput(extracted).value)
    ensures Truthy(extracted) && !extracted.Dict? ==>
      r == GenerateFailed("Brief generation failed: '" + TypeName(extracted) + "' object has no attribute 'get'")
    ensures extracted.Dict? && Briefs.CheckInput(extracted).None? ==>
      var rungs := ModelRungs(cfg, live, gemini, ollama, extracted.entries, loads, show, timestamp);
      (rungs.Some? ==> r == rungs.value)
      && (rungs.None? ==> r == MockBrief(extracted.entries, show, timestamp))
  {
    if Truthy(extracted) && !extracted.Dict? then
      GenerateFailed("Brief generation failed: '" + TypeName(extracted) + "' object has no attribute 'get'")
    else
      match Briefs.CheckInput(extracted)
      case Some(error) => GenerateFailed(error)
      case None =>
        match ModelRungs(cfg, live, gemini, ollama, extracted.entries, loads, show, timestamp)
        case Some(answer) => answer
        case None => MockBrief(extracted.entries, show, timestamp)
  }

  /** `generate` succeeds exactly when the data is a dict with truthy `facts`,
      `legal_issues` and `holdings`. */
  lemma GenerateSucceedsIff(extracted: Value, cfg: PerceptionLayer.ModelConfig, live: PerceptionLayer.Liveness,
                            gemini: PerceptionLayer.GeminiReply, ollama: PerceptionLayer.OllamaReply,
                            loads: string -> Option<Value>, show: Value -> string, timestamp: real)
    ensures Generate(extracted, cfg, live, gemini, ollama, loads, show, timestamp).Generated? <==>
      extracted.Dict? && Extraction.Missing(extracted.entries, Briefs.InputFields) == []
  {
    if extracted.Dict? && Extraction.Missing(extracted.entries, Briefs.InputFields) == [] {
      NothingMissingTruthy(extracted.entries);
      assert Briefs.CheckInput(extracted).None?;
      if ModelRungs(cfg, live, gemini, ollama, extracted.entries, loads, show, timestamp).None? {
        MockBriefShape(extracted.entries, show, timestamp);
      }
    } else if extracted.Dict? || !Truthy(extracted) {
      assert Briefs.CheckInput(extracted).Some?;
    }
  }

  /** A dict missing none of the input fields holds at least one entry. */
  lemma NothingMissingTruthy(entries: Entries)
    requires Extraction.Missing(entries, Briefs.InputFields) == []
    ensures entries != []
  {
    assert Briefs.InputFields[0] == "facts";
    assert Truthy(Find(entries, "facts").GetOr(Null));
  }

  /** A generated brief is the mock brief exactly when no model rung succeeded. */
  lemma GenerateMockIff(extracted: Value, cfg: PerceptionLayer.ModelConfig, live: PerceptionLayer.Liveness,
                        gemini: PerceptionLayer.GeminiReply, ollama: PerceptionLayer.OllamaReply,
                        loads: string -> Option<Value>, show: Value -> string, timestamp: real)
    requires extracted.Dict?
    ensures var r := Generate(extracted, cfg, live, gemini, ollama, loads, show, timestamp);
      r.Generated? ==>
        (r.producer == LegalExtractor.ByMock <==> ModelRungs(cfg, live, gemini, ollama, extracted.entries, loads, show, timestamp).None?)
  {
  }

  /** Whichever rung wrote it, a generated brief has all four sections and the key
      citations. */
  lemma GeneratedSections(extracted: Value, cfg: PerceptionLayer.ModelConfig, live: PerceptionLayer.Liveness,
                          gemini: PerceptionLayer.GeminiReply, ollama: PerceptionLayer.OllamaReply,
                          loads: string -> Option<Value>, show: Value -> string, timestamp: real, section: string)
    requires section in Briefs.Sections
    ensures var r := Generate(extracted, cfg, live, gemini, ollama, loads, show, timestamp);
      r.Generated? ==> HasKey(r.data, section) && HasKey(r.data, "key_citations")
  {
    var r := Generate(extracted, cfg, live, gemini, ollama, loads, show, timestamp);
    if r.Generated? {
      var e := extracted.entries;
      var rungs := ModelRungs(cfg, live, gemini, ollama, e, loads, show, timestamp);
      if rungs.None? {
        Briefs.EnhanceShape(MockDraft(e, show), e, show, timestamp, true, section);
      } else if r.producer == LegalExtractor.ByGemini {
        var v := LegalExtractor.ParseExtractionResponse(gemini.text, loads).value;
        Briefs.EnhanceShape(v.entries, e, show, timestamp, true, section);
      } else {
        var v := LegalExtractor.ParseExtractionResponse(ollama.text, loads).value;
        Briefs.EnhanceShape(v.entries, e, show, timestamp, true, section);
      }
    }
  }
}
