# Legal document analysis server, modelled in Dafny

This project models the core of a Flask server that analyses legal documents.
The server is built in layers:

- **Perception layer.** Talks to a language model: Gemini first, a local Ollama server as the fallback. It retries each backend and pulls JSON out of the model's answer.
- **Memory layer.** Keeps user preferences (merged over a fixed default table) and the current session's context and history.
- **Decision layer.** Asks the model for an execution plan over a registry of five agents. If the model gives no plan, it falls back to a keyword-driven rule-based plan. It also validates plans against the agents' dependencies and decides whether each agent should run.
- **Action layer.** Runs the three actions: extracting legal information, generating a brief, and normalizing citations.
- **Agents.** Four stand-alone agents do the same jobs with their own model ladders and rule-based mock fallbacks: the legal extractor, the brief generator, the citation normalizer and the master orchestrator.
- **Response formatter.** Shapes every answer.
- **HTTP routes.** Guard the inputs and choose status codes.

The model is functional and uses these conventions:

- **JSON values.** A Python value that crosses a JSON boundary is a `Values.Value`: null, bool, int, real, string, list, or a dict as an ordered list of entries. Python truthiness, `dict.get`, `len()` and iteration are spelled out, including the cases where they raise.
- **Outside calls.** Every call the core cannot see is a parameter. This covers the model backends, `json.loads`, the regular expressions, `float()`, `str()` and clocks. Properties therefore hold for every behaviour of those calls.
- **Errors.** Each operation's error paths are values: `Failed`, `Crashed`, `Escaped`, `Respond(400, …)`. A raised exception caught by the source's `except` is modelled as the message that `except` produces. An exception that escapes is a distinct outcome.

Modules follow the source layout:

| module | file |
|---|---|
| `Values` | dict and value helpers |
| `PyText` | `str.strip`, `split`, `lower` and related helpers |
| `Registry` | the agent table |
| `PerceptionLayer` | `perception_layer.dfy` |
| `MemoryLayer` | `memory_layer.dfy` |
| `DecisionLayer` | `decision_layer.dfy` |
| `MasterOrchestrator` | `master_orchestrator.dfy` |
| `Extraction` and `Briefs` | the extraction and brief logic that the action layer and the agents share |
| `ActionLayer` | `action_layer.dfy` |
| `LegalExtractor` | `legal_extractor.dfy` |
| `BriefGenerator` | `brief_generator.dfy` |
| `CitationNormalizer` | `citation_normalizer.dfy` |
| `ResponseFormatter` | `response_formatter.dfy` |
| `ServerMain` | `server_main.dfy` |

## Model

| member | source | states |
|---|---|---|
| PerceptionLayer.JudgeGemini | server/layers/perception_layer.py:143-161 | a Gemini attempt succeeds exactly when the call returns non-empty text |
| PerceptionLayer.JudgeOllama | server/layers/perception_layer.py:195-226 | an Ollama attempt succeeds exactly when the HTTP status is 200 and the generated text is non-empty |
| PerceptionLayer.RetryFrom | server/layers/perception_layer.py:134-175 | the retry loop makes at most `max_retries` attempts and none when it is not positive, in which case it reports "Max retries exceeded"; every attempt before the last failed; a success returns the last attempt's text; a failure after all attempts reports the last attempt's error |
| PerceptionLayer.Candidates | server/layers/perception_layer.py:82-88 | a given preferred model is tried first and the other backend second; with no preference the configured primary and fallback models are used |
| PerceptionLayer.AttemptsBound | server/layers/perception_layer.py:59-125 | one `process_with_llm` call spends at most two full retry budgets across both backends |
| PerceptionLayer.TryBound | server/layers/perception_layer.py:90-118 | each rung of the ladder spends at most one retry budget, and only when it names its own backend |
| PerceptionLayer.ResultTags | server/layers/perception_layer.py:90-125 | every failure is "No LLM models available"; every success is tagged with the backend that answered, with "(fallback)" exactly when that backend was the fallback candidate, and that backend was live |
| PerceptionLayer.NothingLive | server/layers/perception_layer.py:120-125 | with neither backend live, nothing is attempted and the call fails with "No LLM models available" |
| PerceptionLayer.DeadPrimaryFallsBack | server/layers/perception_layer.py:105-118 | when Gemini is preferred but not set up, a live Ollama that answers at its first attempt gives the result, tagged "ollama (fallback)" |
| PerceptionLayer.PrimaryAnswerWins | server/layers/perception_layer.py:90-96 | a live preferred Gemini that answers at its first attempt gives the result after exactly one attempt, with no Ollama call |
| PerceptionLayer.BraceSpan | server/layers/perception_layer.py:288-290 | the greedy `\{.*\}` match runs from the first '{' to the last '}', and there is none exactly when no '{' precedes a '}' |
| PerceptionLayer.BraceSpanIdempotent | server/layers/perception_layer.py:288-290 | searching the span again finds the span itself |
| PerceptionLayer.ParseJsonResponse | server/layers/perception_layer.py:264-294 | direct parsing wins; otherwise a fenced block is parsed (and nothing else is tried if that fails); otherwise the brace span is parsed |
| PerceptionLayer.ParseSources | server/layers/perception_layer.py:274-294 | any parsed value comes from the whole text, the fenced block or the brace span |
| PerceptionLayer.GetPrompt | server/layers/perception_layer.py:242-262 | a missing or falsy template gives the empty string; a truthy template gives its formatting, or the empty string when formatting raises |
| Registry.GetAgentInfo | server/layers/decision_layer.py:347-349 | a lookup succeeds exactly for the five registered agent ids |
| Registry.LookupMatchesTable | server/layers/decision_layer.py:21-57 | the registry holds five distinct ids, and each lookup returns that id's own entry |
| Registry.DependencyShape | server/layers/decision_layer.py:21-57 | the extractor needs nothing; the brief generator, normalizer and retriever need the extractor; the comparator needs the extractor and the retriever |
| Registry.DependenciesPrecede | server/layers/decision_layer.py:21-57 | every dependency of an agent is declared earlier in the table |
| Registry.DepsMatchTable | server/layers/decision_layer.py:288-289 | the dependency list the validator reads for an agent is the registry entry's, and it is empty for an unknown id |
| MemoryLayer.LoadPreferences | server/layers/memory_layer.py:90-104 | the loaded preferences always have exactly the default categories, in the default order, whether the file is missing, unreadable, not a dict, or a dict |
| MemoryLayer.MergeKeepsKeys | server/layers/memory_layer.py:106-114 | merging the stored preferences never adds or drops a default key |
| MemoryLayer.MergeFind | server/layers/memory_layer.py:106-114 | after merging, a key that is both a default and stored holds the merge of the two values; every other key keeps its default |
| MemoryLayer.GetPreferences | server/layers/memory_layer.py:126-138 | no category, or an empty one, gives all preferences; a known category gives that category's value; an unknown category gives an empty dict |
| MemoryLayer.UpdateUnknownCategory | server/layers/memory_layer.py:150-155 | an update to an unknown category reports "Invalid category: …" and changes nothing |
| MemoryLayer.UpdateDictCategory | server/layers/memory_layer.py:157-183 | updating a dict category makes each updated key read back the new value; the category's other keys, the other categories, the context and the history are unchanged; success is reported exactly when the save succeeds |
| MemoryLayer.UpdatePreferences | server/layers/memory_layer.py:140-183 | an unknown category is refused and nothing changes; the session context and history are never touched; a reported success needs a successful save and replies with the value now stored under the category. Key-level effects are stated by MemoryLayer.UpdateDictCategory, MemoryLayer.UpdateWithPairList and MemoryLayer.UpdateStopsAtBadElement, and the category list by MemoryLayer.UpdateKeepsCategories |
| MemoryLayer.PairsPrefix | server/layers/memory_layer.py:163-164 | `dict.update` over a non-dict iterable inserts the elements' key/value pairs in order, stopping at the first element that is not a two-item iterable with a string key |
| MemoryLayer.PairsPrefixStops | server/layers/memory_layer.py:163-164 | the pairs inserted run exactly up to the first element that is not a pair |
| MemoryLayer.UpdateWithPairList | server/layers/memory_layer.py:140-183 | updating a dict category with a list of `[key, value]` pairs has exactly the effect of updating it with the dict of those pairs |
| MemoryLayer.UpdateStopsAtBadElement | server/layers/memory_layer.py:155-183 | an update list whose element is not a pair reports "Error updating preferences", and the pairs ahead of that element stay applied in memory |
| MemoryLayer.UpdateKeepsCategories | server/layers/memory_layer.py:140-183 | no update adds or removes a preference category |
| MemoryLayer.ResetPreferences | server/layers/memory_layer.py:185-221 | a reset succeeds exactly when the save succeeds and the category is absent, empty or one of the defaults; a success replies with the whole preference tree; the session is never touched. What is restored is stated by MemoryLayer.ResetOneCategory and MemoryLayer.ResetAllAndUnknown |
| MemoryLayer.ResetOneCategory | server/layers/memory_layer.py:185-221 | resetting one known category restores its default and leaves every other category as it was |
| MemoryLayer.ResetAllAndUnknown | server/layers/memory_layer.py:185-221 | a full reset restores the whole default table; resetting an unknown category reports "Invalid category: …" and changes nothing |
| MemoryLayer.ResetKeepsCategories | server/layers/memory_layer.py:185-221 | starting from the default categories, a reset never adds or removes a category |
| MemoryLayer.UpdateSessionContext | server/layers/memory_layer.py:227-234 | updating the context leaves the preferences and the history alone |
| MemoryLayer.SessionContextRoundTrip | server/layers/memory_layer.py:223-234 | after an update, reading the context gives the updated value for each updated key and the earlier value for every other key |
| MemoryLayer.AddToSessionHistory | server/layers/memory_layer.py:236-244 | the history grows by exactly one dict event, stamped with the given timestamp, and the earlier events are kept in order |
| MemoryLayer.ClearSession | server/layers/memory_layer.py:313-320 | clearing empties the context and the history and keeps the preferences |
| DecisionLayer.DepsMissingFrom | server/layers/decision_layer.py:289-293 | the dependencies reported as not executed before are exactly those absent from the earlier part of the sequence |
| DecisionLayer.DepsPresentIn | server/layers/decision_layer.py:302-307 | the dependencies reported as circular are exactly those occurring at or after the agent's position |
| DecisionLayer.FirstPassDefined | server/layers/decision_layer.py:286-296 | the first pass completes exactly when no sequence item is a list or dict, which cannot be looked up in the registry |
| DecisionLayer.FirstPassWarnings | server/layers/decision_layer.py:286-293 | a warning is reported exactly for a known agent at some position whose dependency is not among the items before it |
| DecisionLayer.FirstPassErrors | server/layers/decision_layer.py:294-296 | an "Unknown agent" error is reported exactly for each item that is not a registered agent |
| DecisionLayer.SecondPassErrors | server/layers/decision_layer.py:299-307 | a circular-dependency error is reported exactly for a known agent whose dependency occurs at or after its position |
| DecisionLayer.SecondPassSound | server/layers/decision_layer.py:299-307 | every circular-dependency error has a position in the sequence that witnesses it |
| DecisionLayer.SecondPassComplete | server/layers/decision_layer.py:299-307 | every witnessing position is reported |
| DecisionLayer.StringPlanReport | server/layers/decision_layer.py:256-309 | for a sequence of strings, the errors are the missing-field error (if any), then the unknown agents, then the circular dependencies; the warnings are the first pass's; the plan is valid exactly when there are no errors |
| DecisionLayer.NoUnknownIff | server/layers/decision_layer.py:286-296 | the first pass reports no error exactly when every item is a registered agent |
| DecisionLayer.NoCircularIff | server/layers/decision_layer.py:299-307 | the second pass reports nothing exactly when no agent depends on itself or on an agent at or after it |
| DecisionLayer.ValidIff | server/layers/decision_layer.py:256-309 | a plan is valid exactly when it has `selected_agents`, every item is a known agent, and no dependency occurs at or after its dependent |
| DecisionLayer.WarningsIff | server/layers/decision_layer.py:286-293 | the "not executed before" warning for an agent and a dependency appears exactly when the agent occurs with that dependency missing before it |
| DecisionLayer.LateDependencyIsError | server/layers/decision_layer.py:299-307 | a dependency placed at or after its dependent makes the plan invalid with that circular-dependency error |
| DecisionLayer.AbsentDependencyIsWarningOnly | server/layers/decision_layer.py:286-307 | a dependency missing from the whole sequence gives a warning and never a circular-dependency error |
| DecisionLayer.OrderedPlanClean | server/layers/decision_layer.py:256-309 | a plan whose known agents each follow all their dependencies validates with no warning and no error |
| DecisionLayer.FullSequenceOrdered | server/layers/decision_layer.py:205 | extractor, brief generator, normalizer is dependency-ordered |
| DecisionLayer.ShortSequenceOrdered | server/layers/decision_layer.py:207 | extractor, normalizer is dependency-ordered |
| DecisionLayer.SimilarSequenceOrdered | server/layers/decision_layer.py:211 | extractor, retriever, comparator is dependency-ordered |
| DecisionLayer.RuleSequenceOrdered | server/layers/decision_layer.py:200-217 | the keyword planner only ever picks one of the three fixed sequences, each dependency-ordered |
| DecisionLayer.KeywordOverridesPreferences | server/layers/decision_layer.py:204-211 | when the request names a keyword, the `auto_generate_brief` preference plays no part |
| DecisionLayer.PlanObject | server/layers/decision_layer.py:219-237 | the plan object carries the given agents, sequence, conditional logic and confidence under their keys |
| DecisionLayer.SelectedAgents | server/layers/decision_layer.py:221-230 | one selected-agent entry per sequence item, in order, with priority counted from 1 |
| DecisionLayer.BuildPlan | server/layers/decision_layer.py:219-237 | the built plan has the sequence as a list of strings, the selected agents with their reasons and priorities, the fixed skip rules, and a confidence of 0.7 |
| DecisionLayer.RuleBasedPlanClean | server/layers/decision_layer.py:182-254 | a rule-based plan is tagged "rule-based", holds the sequence the keyword and preference rules pick (one of the three), has a confidence of 0.7 and validates cleanly; planning fails exactly when the context is not a dict, or no keyword matches and the preferences cannot be read |
| DecisionLayer.ShouldExecuteIff | server/layers/decision_layer.py:311-345 | an agent is skipped exactly when the skip-all rule applies and the extractor's recorded result is unsuccessful, or when it is the normalizer, the no-citations rule applies and the extractor's citations are empty |
| DecisionLayer.ExtractorFailureStopsRun | server/layers/decision_layer.py:331-334 | once the extractor is recorded as failed under the skip-all rule, a run over any sequence executes nothing more and leaves the results as they were |
| DecisionLayer.DecideExecutionPlan | server/layers/decision_layer.py:74-157 | a plan taken from the model carries exactly its own validation report |
| DecisionLayer.DecideOnModelReply | server/layers/decision_layer.py:100-157 | when the model answers, a reply that does not parse or parses to a falsy value falls back to the rule-based planner; a truthy parsed plan is returned as it stands with its validation report and the answering model's name, whether or not the validation passed; a plan whose validation raises fails the decision |
| DecisionLayer.DecideOnModelError | server/layers/decision_layer.py:100-130 | when the model call returns an error, planning is exactly the rule-based planner on the context, with the preferences stored in it |
| DecisionLayer.DecideAsWrittenAlwaysFails | server/layers/decision_layer.py:120-126 | with the call as written, planning always fails |
| DecisionLayer.DecideCorrectedWithoutModels | server/layers/decision_layer.py:120-130 | with the call corrected and no live backend, planning falls back to the rule-based planner, and any plan it gives validates cleanly |
| MasterOrchestrator.ParseOrchestrationResponse | server/agents/master_orchestrator.py:284-297 | the brace span is parsed when there is one; otherwise the whole text is |
| MasterOrchestrator.ParsersAgreeWithoutSpan | server/agents/master_orchestrator.py:284-297 | without a brace span, the orchestrator's parser agrees with the perception layer's parser whenever the direct parse succeeds, and otherwise gives nothing |
| MasterOrchestrator.OrchestrateWithGemini | server/agents/master_orchestrator.py:186-222 | the Gemini step gives a plan exactly when the reply is non-empty text that parses to a truthy value, and the plan is that value |
| MasterOrchestrator.OrchestrateWithOllama | server/agents/master_orchestrator.py:224-282 | the Ollama step gives a plan exactly when the status is 200 and the text is non-empty and parses to a truthy value; any other status reports "Ollama API error: <status>" |
| MasterOrchestrator.DefaultIsRuleWithAutoBrief | server/agents/master_orchestrator.py:299-351 | the default planner's sequence is the decision layer's keyword rule with automatic briefs switched on |
| MasterOrchestrator.DefaultSequenceOrdered | server/agents/master_orchestrator.py:305-316 | the default planner picks one of the three dependency-ordered sequences |
| MasterOrchestrator.DefaultPlan | server/agents/master_orchestrator.py:299-351 | the default plan lists its sequence as strings, has `selected_agents`, carries the fixed skip rules and a confidence of 0.7 |
| MasterOrchestrator.Orchestrate | server/agents/master_orchestrator.py:131-184 | orchestration always produces a plan, tagged "gemini", "ollama" or "default" |
| MasterOrchestrator.OrchestrateLadder | server/agents/master_orchestrator.py:161-177 | the Gemini plan is used exactly when Gemini is the configured primary, is set up and gives a plan; otherwise Ollama's exactly when Ollama is the configured fallback, is available and gives a plan; otherwise the default plan for the request |
| MasterOrchestrator.ValidateOrchestrationPlan | server/agents/master_orchestrator.py:353-390 | a dict plan without an `execution_sequence` is always judged; a plan missing either required field is invalid; a plan is valid exactly when it has no errors, and there are never suggestions. Its relation to the decision layer's validator is stated by MasterOrchestrator.OrchestratorIsLayerWithoutUnknown |
| MasterOrchestrator.WithoutUnknown | server/agents/master_orchestrator.py:369-388 | the kept issues are exactly those that are not unknown-agent errors |
| MasterOrchestrator.OrchestratorIsLayerWithoutUnknown | server/agents/master_orchestrator.py:353-390 | the orchestrator's validator is the decision layer's validator with the unknown-agent errors left out, and it is valid exactly when no error remains |
| MasterOrchestrator.DefaultPlanClean | server/agents/master_orchestrator.py:299-390 | the default plan passes both validators with nothing to report |
| Extraction.TooShortIff | server/layers/action_layer.py:66-71 | a document is accepted exactly when its stripped text has at least 100 characters |
| Extraction.Truncate | server/layers/action_layer.py:78-80 | a text of at most 50000 characters is kept; a longer one becomes its first 50000 characters followed by the truncation marker |
| Extraction.TruncateIdempotent | server/agents/legal_extractor.py:109-110 | truncating twice is truncating once |
| Extraction.FoundIff | server/layers/action_layer.py:150-160 | a scored field counts exactly when it is a non-empty list, or a string other than "Not found" whose stripped text is non-empty |
| Extraction.FoundCount | server/layers/action_layer.py:150-160 | the count is zero exactly when no listed field is found, and full exactly when all are |
| Extraction.Confidence | server/layers/action_layer.py:143-174 | the score lies in [0, 1] and is 1 when every scored field is found; it is undefined exactly when the citations are truthy but have no length |
| Extraction.ConfidenceZeroIff | server/agents/legal_extractor.py:260-291 | the score is 0 exactly when no scored field is found, the citations are falsy and there is no usable case number |
| Extraction.CoerceList | server/layers/action_layer.py:186-190 | a list stays as it is; any other truthy value becomes a one-item list of its text; a falsy value becomes the empty list |
| Extraction.CoerceString | server/layers/action_layer.py:192-195 | a string stays as it is; any other truthy value becomes its text; a falsy value becomes the fallback string |
| Extraction.CoerceIdempotent | server/layers/action_layer.py:186-195 | coercing twice is coercing once |
| Extraction.CoerceFieldsFind | server/agents/legal_extractor.py:449-470 | after the coercion loop, a listed field that is present holds its coerced value and every other key is untouched |
| Extraction.CoerceFieldsNoop | server/agents/legal_extractor.py:449-470 | when every listed field is already in its coerced form, the loop changes nothing |
| Extraction.CoerceAllFind | server/layers/action_layer.py:176-203 | after both loops, each key is present exactly when it was; list fields hold their list form, string fields their string form, others are unchanged |
| Extraction.Missing | server/layers/action_layer.py:526-529 | the reported fields are exactly the listed fields that are absent or falsy, in the listed order |
| Extraction.MissingEmptyIff | server/layers/action_layer.py:526-529 | nothing is missing exactly when every listed field is present and truthy |
| Extraction.MissingMember | server/layers/action_layer.py:526-529 | a listed field is reported exactly when it is absent or falsy |
| Extraction.NotLists | server/layers/action_layer.py:532-536 | the reported fields are exactly the listed fields present with a non-list value |
| Extraction.ListWarnings | server/layers/action_layer.py:532-536 | one "… should be a list" warning per such field, in order |
| Extraction.DateWarnings | server/agents/legal_extractor.py:310-315 | a date check raises exactly for a truthy non-string date other than "Not found"; it warns exactly for a non-empty string date the pattern rejects |
| Extraction.ValidateExtraction | server/layers/action_layer.py:516-538 | the report is valid exactly when no required field is missing; its errors name each missing field in order; its warnings are at most one date warning followed by the list warnings |
| Briefs.CheckInput | server/layers/action_layer.py:235-251 | the input passes exactly when the data is truthy and none of facts, legal issues and holdings is missing; otherwise the error names the missing fields, or says there is no data |
| Briefs.WordCountFrame | server/layers/action_layer.py:332-345 | keys other than the four sections do not change the word count |
| Briefs.SectionScore | server/layers/action_layer.py:371-396 | a section scores at most 20, and scores at all exactly when it is present, truthy and not the placeholder |
| Briefs.LengthScore | server/layers/action_layer.py:385-390 | 10 points for 200 to 400 words, 5 for 100 to 199 or 401 to 500, none otherwise |
| Briefs.Confidence | server/layers/action_layer.py:371-396 | the score is an integer from 0 to 100; it is undefined exactly when the key citations are truthy but have no length |
| Briefs.ConfidenceFullIff | server/agents/brief_generator.py:335-360 | the score is 100 exactly when all four sections score fully, the brief has 200 to 400 words and it has key citations |
| Briefs.EnhanceKeepsCitations | server/layers/action_layer.py:365-367 | key citations the brief carries come through the enhancement unchanged |
| Briefs.EnhanceShape | server/agents/brief_generator.py:291-333 | an enhanced brief has all four sections, each one the model's own or the placeholder, and has key citations |
| Briefs.EnhanceWordCount | server/layers/action_layer.py:332-345 | the stored word count is the count of the brief as the model gave it |
| Briefs.EnhanceScore | server/layers/action_layer.py:347-350 | a given score from 0 to 100 is kept; otherwise the computed score is stored; the enhancement fails exactly when neither is available |
| Briefs.LengthWarnings | server/layers/action_layer.py:557-561 | at most one length warning, and none exactly for 100 to 500 words |
| Briefs.ReasoningSuggestions | server/agents/brief_generator.py:386-392 | a suggestion is made exactly when the reasoning is a list with fewer than two or more than six points |
| Briefs.CitationWarnings | server/agents/brief_generator.py:394-397 | the agent warns about citations exactly when they are falsy, and the check raises exactly when they are truthy but have no length |
| Briefs.ValidateBrief | server/layers/action_layer.py:540-563 | the report is valid exactly when no section is missing; its errors name each missing section in order; the layer gives only the word-count warning (at most one) and no suggestion, the agent gives the length then the citation warnings |
| Briefs.EnhanceThenValidate | server/agents/brief_generator.py:291-399 | after enhancement a section is reported missing exactly when the model gave it with a falsy value |
| ActionLayer.ToFloat | server/layers/action_layer.py:91-93 | `float()` of a bool, int or float is its number; of a list, dict or null it raises |
| ActionLayer.LlmSettings | server/layers/action_layer.py:88-93 | empty preferences give Gemini at the default temperature; preferences that are not a dict raise; the model chosen is the decision layer's preferred model |
| ActionLayer.EnhanceExtraction | server/layers/action_layer.py:176-203 | the enhanced data carries metadata with the timestamp and the keys of the data as given |
| ActionLayer.EnhanceExtractionFind | server/layers/action_layer.py:176-203 | every other key is present exactly when it was, with list fields and string fields coerced ("Not found" as the fallback) and the rest unchanged |
| ActionLayer.EnhanceExtractionKeys | server/layers/action_layer.py:176-203 | enhancement appends `metadata` to the keys unless it was already there |
| ActionLayer.FinishExtraction | server/layers/action_layer.py:103-134 | a missing or falsy parse is a JSON-parse failure; success needs a truthy dict that can be scored, and carries its score in [0, 1], the enhanced data and the backend tag |
| ActionLayer.ExtractText | server/layers/action_layer.py:84-141 | extraction succeeds exactly when the settings can be read, the model call returns an answer, and that answer parses to a scorable dict |
| ActionLayer.ExtractTextOnError | server/layers/action_layer.py:103-107 | a model error ends extraction with "LLM processing failed: " and that error |
| ActionLayer.ExtractLegalInformation | server/layers/action_layer.py:38-141 | a document that is too short fails with the length error; any success has a score in [0, 1] and metadata |
| ActionLayer.ExtractPastGuard | server/layers/action_layer.py:66-101 | a document that passes the length guard is extracted from its first 50000 characters (with the truncation marker) under the passed preferences when truthy, else the stored ones |
| ActionLayer.ExtractSeesOnlyPrefix | server/layers/action_layer.py:76-80 | two long documents with the same first 50000 characters are extracted alike |
| ActionLayer.ExtractAsWrittenFails | server/layers/action_layer.py:96-101 | with the call as written, extraction never succeeds, and a document past the guard fails with the call's `TypeError` |
| ActionLayer.ExtractCorrectedWithoutModels | server/layers/action_layer.py:96-107 | with the call corrected and no live backend, a document past the guard fails with "No LLM models available" |
| ActionLayer.GenerateLegalBrief | server/layers/action_layer.py:207-326 | at the detailed level, non-dict data escapes the action; a success needs dict data that passes the input check; data that fails the check reports the check's error |
| ActionLayer.GenerateOnModelAnswer | server/layers/action_layer.py:225-326 | for data that passes the input check, a call that raises fails with the brief error prefix and its message, a model error fails with the model's error, and a model reply is finished into the brief |
| ActionLayer.GeneratedBriefShape | server/layers/action_layer.py:328-369 | a generated brief carries all four sections and key citations |
| ActionLayer.BriefAsWrittenFails | server/layers/action_layer.py:285-290 | with the call as written, brief generation never succeeds, and valid data fails with the call's `TypeError` |
| ActionLayer.BriefCorrectedWithoutModels | server/layers/action_layer.py:285-298 | with the call corrected and no live backend, valid data fails with "No LLM models available" |
| ActionLayer.NormalizeSingle | server/layers/action_layer.py:474-512 | the result keeps the stripped original and the format; it is a case citation with confidence 0.9 exactly when the case pattern matches, otherwise generic with confidence 0.3 |
| ActionLayer.GenericKeepsWords | server/layers/action_layer.py:500-512 | a generic citation keeps the words of the original |
| ActionLayer.NormalizeItem | server/layers/action_layer.py:441-454 | a non-string item becomes an error entry with confidence 0 and an error message; a string item reports nothing |
| ActionLayer.NormalizeEachAt | server/layers/action_layer.py:441-454 | the loop gives one entry per item, in order |
| ActionLayer.NormalizeEachClean | server/layers/action_layer.py:441-454 | a loop over strings only reports no errors |
| ActionLayer.NormalizeEachReports | server/layers/action_layer.py:441-454 | any non-string item makes the loop report an error |
| ActionLayer.NormalizeEachErrors | server/layers/action_layer.py:441-454 | the loop reports an error exactly when some item is not a string |
| ActionLayer.CitationFormat | server/layers/action_layer.py:423-424 | empty preferences give "bluebook"; preferences that are not a dict raise |
| ActionLayer.NormalizeCitations | server/layers/action_layer.py:400-472 | it never fails softly: it crashes exactly when the format cannot be read or truthy citations cannot be iterated; falsy citations give an empty batch; otherwise the total is the number of items, with errors recorded |
| ActionLayer.NormalizeList | server/layers/action_layer.py:436-465 | a non-empty list is normalized item by item from position 0 |
| ActionLayer.NormalizeStrings | server/layers/action_layer.py:436-465 | a list of strings normalizes each string in place with no errors |
| LegalExtractor.CleanFences | server/agents/legal_extractor.py:250-255 | removing the fence markers never lengthens the text |
| LegalExtractor.CleanFencesRecoversBody | server/agents/legal_extractor.py:250-255 | a body with no backquote is left as it is, and the same body fenced as a JSON block comes back as the body |
| LegalExtractor.ParseExtractionResponse | server/agents/legal_extractor.py:236-258 | the brace span (or the whole text) is parsed first; if that fails, the de-fenced stripped text is parsed |
| LegalExtractor.ParseFencedReply | server/agents/legal_extractor.py:236-258 | a fenced reply with no brace that fails the direct parse is parsed from its stripped body |
| LegalExtractor.ScoreStep | server/agents/legal_extractor.py:159-167 | a parsed value can be scored exactly when it is a dict whose score is defined, and the score lies in [0, 1] |
| LegalExtractor.ExtractWithGemini | server/agents/legal_extractor.py:138-171 | the Gemini step succeeds exactly when the reply is non-empty text that parses to a truthy, scorable dict, and it keeps the raw text |
| LegalExtractor.ExtractWithOllama | server/agents/legal_extractor.py:175-234 | the Ollama step succeeds under the same conditions with status 200; any other status reports "Ollama API error: <status>" |
| LegalExtractor.Counted | server/agents/legal_extractor.py:435-445 | the count is full exactly when every listed field is present and accepted |
| LegalExtractor.CountedAppend | server/agents/legal_extractor.py:435-445 | counting over two lists of fields adds up |
| LegalExtractor.DataQuality | server/agents/legal_extractor.py:430-447 | the quality lies between 0 and 7/8 |
| LegalExtractor.DataQualityFull | server/agents/legal_extractor.py:430-447 | the quality reaches 7/8 exactly when all six required fields are present and not "Unknown", and both optional fields are truthy |
| LegalExtractor.FirstMatch | server/agents/legal_extractor.py:329-341 | the line chosen is the first line, within the limit, that passes the test; there is none exactly when no line within the limit passes |
| LegalExtractor.MockFacts | server/agents/legal_extractor.py:350-356 | the mock facts are the stripped first paragraph when it is longer than 50 characters, cut to 200 characters plus an ellipsis when longer than that |
| LegalExtractor.MockCitations | server/agents/legal_extractor.py:371-375 | the mock citations are the first three case names found, in order |
| LegalExtractor.Analyze | server/agents/legal_extractor.py:323-392 | the analysis gives at most three citations and the text's word count |
| LegalExtractor.AnalyzeUseful | server/agents/legal_extractor.py:329-348 | the mock case name, court and date are never empty and never "Unknown", so each counts toward quality |
| LegalExtractor.MockFields | server/agents/legal_extractor.py:380-394 | the mock dict has exactly the twelve fields in the source's order, holding the facts, citations, disposition and word count found |
| LegalExtractor.MockQuality | server/agents/legal_extractor.py:380-447 | the mock answer's quality is 5.5/8, plus 1/8 when facts were found and 0.5/8 when citations were found |
| LegalExtractor.EnhanceData | server/agents/legal_extractor.py:414-428 | enhancement gives the keys of the data with `metadata` stored |
| LegalExtractor.EnhanceDataMetadata | server/agents/legal_extractor.py:414-428 | the stored metadata is computed on the data as it came |
| LegalExtractor.CoercionKeepsMetadata | server/agents/legal_extractor.py:449-470 | the field validation leaves `metadata` alone |
| LegalExtractor.EnhanceDataFind | server/agents/legal_extractor.py:414-470 | every other key is present exactly when it was, with list and string fields coerced ("Unknown" as the fallback) and the rest unchanged |
| LegalExtractor.MockEnhanceAddsMetadata | server/agents/legal_extractor.py:323-470 | enhancing the mock dict only appends its metadata |
| LegalExtractor.ModelRungs | server/agents/legal_extractor.py:112-126 | Gemini's extraction is used exactly when Gemini is the configured primary, is set up and succeeds; otherwise Ollama's exactly when Ollama is the configured fallback, is available and succeeds; each comes with a score in [0, 1] |
| LegalExtractor.MockAnswer | server/agents/legal_extractor.py:128-129 | the mock answer is the enhanced mock dict, with no score |
| LegalExtractor.Extract | server/agents/legal_extractor.py:87-136 | extraction fails exactly for a document that is too short; otherwise a model's answer is used exactly when a rung succeeds, and the mock answer on the truncated text otherwise; only model answers carry a score |
| LegalExtractor.ExtractSeesOnlyPrefix | server/agents/legal_extractor.py:109-110 | two long documents with the same first 50000 characters are extracted alike |
| BriefGenerator.EnhanceStep | server/agents/brief_generator.py:166-179 | a parsed brief is accepted exactly when it is a dict that can be enhanced; a list raises the indexing `TypeError` |
| BriefGenerator.GenerateWithGemini | server/agents/brief_generator.py:145-179 | the Gemini step succeeds exactly when the reply is non-empty text that parses to a truthy dict that can be enhanced; empty text reports "Empty response from Gemini" |
| BriefGenerator.GenerateWithOllama | server/agents/brief_generator.py:181-240 | the Ollama step succeeds under the same conditions with status 200; any other status reports "Ollama API error: <status>" |
| BriefGenerator.Front | server/agents/brief_generator.py:421-437 | the first three items, or all of them when there are fewer |
| BriefGenerator.MockReasoningPoints | server/agents/brief_generator.py:421-425 | one to three reasoning points: the first three of a non-empty list, else the value's text |
| BriefGenerator.MockKeyCitations | server/agents/brief_generator.py:428-437 | at most three key citations: the first three of a list, none for any other value |
| BriefGenerator.MockBrief | server/agents/brief_generator.py:401-458 | the mock brief is tagged as the mock producer with the mock response |
| BriefGenerator.EnhanceValidScore | server/agents/brief_generator.py:310-313 | the mock's confidence of 75 survives enhancement |
| BriefGenerator.MockBriefShape | server/agents/brief_generator.py:401-458 | the mock brief keeps its confidence of 75, holds one to three reasoning points taken from the extraction, at most three key citations taken from it, and the draft's word count |
| BriefGenerator.ModelRungs | server/agents/brief_generator.py:119-133 | Gemini's brief is used exactly when Gemini is the configured primary, is set up and succeeds; otherwise Ollama's exactly when Ollama is the configured fallback, is available and succeeds |
| BriefGenerator.Generate | server/agents/brief_generator.py:87-143 | data that fails the input check reports the check's error; truthy non-dict data reports the attribute error; valid data gets a model's brief when a rung succeeds, and the mock brief otherwise |
| BriefGenerator.GenerateSucceedsIff | server/agents/brief_generator.py:87-143 | a brief is generated exactly when the data is a dict with facts, legal issues and holdings all present and truthy |
| BriefGenerator.GenerateMockIff | server/agents/brief_generator.py:119-136 | a generated brief is the mock brief exactly when no model rung succeeded |
| BriefGenerator.GeneratedSections | server/agents/brief_generator.py:291-333 | every generated brief carries all four sections and key citations |
| CitationNormalizer.Part | server/agents/citation_normalizer.py:291-318 | a part lookup finds the named part, or there is none of that name |
| CitationNormalizer.FirstYearFrom | server/agents/citation_normalizer.py:236-238 | the search finds the first position holding four digits |
| CitationNormalizer.YearText | server/agents/citation_normalizer.py:234-238 | a year part is cut to its first four-digit run, or kept when it has none |
| CitationNormalizer.KeepNumeric | server/agents/citation_normalizer.py:231-233 | volume, page and section keep only digits, points and dashes, and are unchanged when they hold nothing else |
| CitationNormalizer.RemoveEmptyParens | server/agents/citation_normalizer.py:311 | dropping empty parentheses never lengthens the text |
| CitationNormalizer.RemoveEmptyParensKeeps | server/agents/citation_normalizer.py:311 | dropping empty parentheses removes only parentheses and whitespace |
| CitationNormalizer.RemoveEmptyParensNone | server/agents/citation_normalizer.py:311 | text without '(' is left as it is |
| CitationNormalizer.SpaceBetween | server/agents/citation_normalizer.py:327-329 | a spacing pass never shortens the text and keeps its first character |
| CitationNormalizer.SpaceBetweenSolid | server/agents/citation_normalizer.py:327-329 | a spacing pass only adds spaces |
| CitationNormalizer.SpaceBetweenSplits | server/agents/citation_normalizer.py:327-329 | after a pass, its boundary no longer occurs, and a boundary an earlier pass removed does not come back |
| CitationNormalizer.GenericCleanupSound | server/agents/citation_normalizer.py:320-331 | the generic cleanup keeps every non-space character of the collapsed text and leaves no lower-upper, letter-digit or digit-letter boundary |
| CitationNormalizer.LookupReporter | server/agents/citation_normalizer.py:265-277 | a reporter lookup returns an entry of the table, or there is no entry for the key |
| CitationNormalizer.StandardizeReporter | server/agents/citation_normalizer.py:263-277 | a reporter whose lower-case form is not a key is kept as written |
| CitationNormalizer.ReporterIgnoresCase | server/agents/citation_normalizer.py:275-277 | two reporters with the same lower-case form standardize alike when that form is a key of the table |
| CitationNormalizer.ReporterKeys | server/agents/citation_normalizer.py:263-277 | each key standardizes to its own entry |
| CitationNormalizer.ReporterIdempotent | server/agents/citation_normalizer.py:263-277 | standardizing twice is standardizing once |
| CitationNormalizer.ReporterValueFixed | server/agents/citation_normalizer.py:265-274 | every standard form standardizes to itself |
| CitationNormalizer.PartyWordIsWord | server/agents/citation_normalizer.py:254-259 | each rewritten word of a party name is still one word |
| CitationNormalizer.CleanPartyNameWords | server/agents/citation_normalizer.py:244-261 | the cleaned party name has the same number of words as the name without its suffix, each one rewritten |
| CitationNormalizer.MatchedParts | server/agents/citation_normalizer.py:173-178 | the parts of a match are named by the expression's group names |
| CitationNormalizer.CleanParts | server/agents/citation_normalizer.py:209-242 | cleaning never adds a part |
| CitationNormalizer.CleanPartsHas | server/agents/citation_normalizer.py:213-215 | a part survives cleaning exactly when some part of that name had non-empty text |
| CitationNormalizer.PartsNamed | server/agents/citation_normalizer.py:173-178 | a name outside the expression's groups never appears among its parts |
| CitationNormalizer.TemplateFor | server/agents/citation_normalizer.py:43-67 | a template exists exactly for the four supported formats |
| CitationNormalizer.Fill | server/agents/citation_normalizer.py:305-307 | filling a template fails exactly when some slot has no part |
| CitationNormalizer.NonEmptyTexts | server/agents/citation_normalizer.py:315-318 | the fallback joins only non-empty part texts |
| CitationNormalizer.FormatCitation | server/agents/citation_normalizer.py:291-318 | when the template cannot be filled, the citation is the non-empty parts joined by spaces |
| CitationNormalizer.CaseNeedsYear | server/agents/citation_normalizer.py:291-318 | a case citation with no `year` part always falls back to the joined parts |
| CitationNormalizer.CaseCitationsFallBack | server/agents/citation_normalizer.py:18-67 | every matched case citation falls back to the joined parts, because the expression names its last group `court_year` while the templates ask for `court` and `year` |
| CitationNormalizer.StatuteFills | server/agents/citation_normalizer.py:291-318 | a statute citation with title, code and section fills its template in every supported format |
| CitationNormalizer.CountFound | server/agents/citation_normalizer.py:346 | the count of required parts found never exceeds the number required |
| CitationNormalizer.CitationConfidence | server/agents/citation_normalizer.py:333-353 | the confidence lies in [0, 1], and is 0.5 for a type with no required parts |
| CitationNormalizer.ConfidenceFullIff | server/agents/citation_normalizer.py:333-353 | a matched citation has confidence 1 exactly when it has all its required parts; the year bonus cannot make up for a missing one |
| CitationNormalizer.RequiredSize | server/agents/citation_normalizer.py:335-340 | each citation type requires two, three or five parts |
| CitationNormalizer.FirstMatch | server/agents/citation_normalizer.py:168-171 | the expression used is one that matches, and there is none exactly when no expression matches |
| CitationNormalizer.FirstMatchWins | server/agents/citation_normalizer.py:168-171 | the first matching expression in the fixed order wins, whatever the later ones do |
| CitationNormalizer.NormalizeSingle | server/agents/citation_normalizer.py:152-207 | a blank citation gives nothing; any other keeps its stripped original and format; it is generic, with confidence 0.3, exactly when no expression matches; otherwise its type is the first expression that matches |
| CitationNormalizer.NormalizeItem | server/agents/citation_normalizer.py:105-129 | a non-string item fails, a blank string is unknown (both with confidence 0 and the item kept); an error is reported exactly for these two cases |
| CitationNormalizer.NormalizeEach | server/agents/citation_normalizer.py:102-129 | the loop gives one entry per item and at most one error per item |
| CitationNormalizer.NormalizeEachAt | server/agents/citation_normalizer.py:102-129 | entry j of the loop is the normalized item j |
| CitationNormalizer.NormalizeEachClean | server/agents/citation_normalizer.py:102-129 | the loop reports no error when every item is a non-blank string |
| CitationNormalizer.NormalizeEachReports | server/agents/citation_normalizer.py:102-129 | a non-string or blank item makes the loop report an error |
| CitationNormalizer.Normalize | server/agents/citation_normalizer.py:70-150 | an unsupported format is refused with the list of supported formats; falsy citations give the empty answer; citations that cannot be iterated crash; a batch has one entry per item |
| CitationNormalizer.NormalizeList | server/agents/citation_normalizer.py:70-150 | a non-empty list in a supported format gives one entry per item, in order, and no errors exactly when every item is a non-blank string |
| CitationNormalizer.ValidateCitationFormat | server/agents/citation_normalizer.py:383-422 | a citation is invalid exactly when the format is Bluebook and its parentheses do not balance, and then it has errors; Bluebook warns exactly when a case citation (one with " v. ") is not in the standard shape; APA warns exactly when no "(dddd)" year appears; other formats pass with nothing to report |
| ResponseFormatter.CountWords | server/utils/response_formatter.py:122-143 | a brief that is not a dict counts zero words; a dict counts the words of its string values and of the string items of its lists |
| ResponseFormatter.CountWordsOfBrief | server/utils/response_formatter.py:122-143 | on a brief of exactly the four sections with string reasoning points, the formatter's count equals the brief's own word count |
| ResponseFormatter.FormatExtractionResponse | server/utils/response_formatter.py:12-37 | the response carries the result's success flag and the version; missing data gives empty fields, and a missing model tag gives "unknown" |
| ResponseFormatter.TotalCitations | server/utils/response_formatter.py:64 | no citation result, or no citation data, counts zero; the count raises exactly when the data is not a dict or its citation list has no length |
| ResponseFormatter.FormatBriefResponse | server/utils/response_formatter.py:39-67 | the response carries the brief's success flag, the citation total and the formatter's word count; with no citation result it reports no citations, the Bluebook format and a total of 0; it raises exactly when the total does |
| ResponseFormatter.FormatCitationResponse | server/utils/response_formatter.py:96-120 | the response raises exactly when the data is not a dict, and otherwise carries the success flag and the normalized citations |
| ResponseFormatter.CitationCountsAgree | server/utils/response_formatter.py:54-120 | the citation response's list and the brief response's total describe the same citations |
| ResponseFormatter.FormatErrorResponse | server/utils/response_formatter.py:69-94 | the error keeps its message and the version, uses the given code or "UNKNOWN_ERROR", and carries details exactly when they are truthy |
| ResponseFormatter.CreateSuccessResponse | server/utils/response_formatter.py:145-170 | the response keeps the data and the version, and carries a message and metadata exactly when they are truthy |
| ResponseFormatter.SuccessDefaults | server/utils/response_formatter.py:12-67 | a result with no success flag is reported as unsuccessful |
| ServerMain.Extension | server/main.py:198-199 | the extension exists exactly when the name has a dot, and is the text after the last dot |
| ServerMain.IsValidFile | server/main.py:192-199 | an empty or missing name is never valid, and a valid name has a dot |
| ServerMain.ValidFileIffExtension | server/main.py:192-199 | a name is accepted exactly when its last extension, in lower case, is pdf or txt |
| ServerMain.ExtensionOfSplit | server/main.py:198-199 | the extension of `stem.ext` is `ext` when `ext` has no dot |
| ServerMain.ReadsAsTextIffTxt | server/main.py:313-317 | an upload is read as plain text exactly when its extension, in lower case, is txt |
| ServerMain.DetailLevel | server/main.py:345-346 | the level is "detailed" exactly for "detailed", otherwise "summary"; a list or dict level raises |
| ServerMain.DetailLevelOf | server/main.py:343-346 | the level read from the preferences is "summary" or "detailed" |
| ServerMain.DetailedIff | server/main.py:343-346 | the level is "detailed" exactly when the general verbosity is "detailed", and "summary" when no verbosity is set |
| ServerMain.DefaultDetailLevel | server/main.py:343-346 | the default preferences give the summary level |
| ServerMain.DocumentText | server/main.py:295-334 | no input is refused; an upload with a bad extension is refused; an upload with an empty name yields empty text; a JSON body that is not a dict raises |
| ServerMain.TextGuard | server/main.py:336-337 | the text passes exactly when it is a string of at least 100 characters once stripped, and is passed on unchanged; truthy non-string text raises; everything else is refused as too short |
| ServerMain.AnalyzeGuard | server/main.py:295-337 | text that reaches analysis has at least 100 characters once stripped; no input is refused; an upload with an empty name is refused as too short |
| ServerMain.TextGuardSpan | server/main.py:336-337 | the text passes exactly when it holds two non-blank characters at least 99 positions apart |
| ServerMain.BriefGuard | server/main.py:414-421 | the route proceeds exactly when the body is a dict with truthy extracted data, and passes that data on; an empty body is refused; a truthy non-dict body raises |
| ServerMain.CitationGate | server/main.py:455-466 | with no citations the empty result is used; the normalizer runs exactly when there are citations and the preference allows it; the gate raises only when the citation preferences are not a dict |
| ServerMain.DefaultPreferencesNormalize | server/main.py:455-466 | with the default preferences, citations are normalized exactly when there are some |
| ServerMain.EmptyCitationResponse | server/main.py:460 | the empty citation result formats as no citations, the Bluebook format and a total of 0 |
| ServerMain.NormalizeGuard | server/main.py:496-518 | an empty body is refused; no citations gives the empty answer; the route proceeds exactly with truthy citations that are a string, a list or a dict of at most three keys, because the logging line raises for anything else |
| ServerMain.OrchestrateGuard | server/main.py:544-552 | an empty body is refused; the route proceeds exactly with a truthy user request, passing on the request and the context (empty by default); a missing request is refused |
| ServerMain.PreferencesWriteGuard | server/main.py:244-252 | an empty body is refused; the route proceeds exactly with a truthy category, passing on it and the updates (empty by default) |
| ServerMain.WritePreferences | server/main.py:242-259 | a write that does not proceed changes nothing; a category that is not a string is refused with 400 |
| ServerMain.WriteThenRead | server/main.py:232-259 | a saved update to a dict category answers 200, and reading that category back gives each updated key's new value |
| ServerMain.ResetPreferencesRoute | server/main.py:261-269 | a reset answers 200 or 400, and 200 exactly when the category is absent or known and the save succeeds; an unknown category changes nothing |

## Left out

- Prompt texts, `_build_orchestration_prompt`, `_format_prompt` and the prompt files are left out. The model's answers are parameters, so the prompt sent does not matter to any property here.
- Transport is left out: HTTP to Ollama, the Gemini client, `time.sleep` between retries, timeouts and model setup. A backend's replies are a function from attempt number to reply, and whether it is set up is a flag.
- Timestamps, `processing_time`, `raw_response` objects, logging and `print` are left out, or appear as parameters.
- Exception texts produced by library calls are left out except where the source builds them itself. Examples kept are the attribute error of `.get` on a non-dict and the indexing `TypeError` on a list.
- Flask routing, JSON decoding of requests and `jsonify` are left out. A request body is a `Values.Value`, and a route is modelled as its guards and status codes.
- PyText.Lower and PyText.Upper map ASCII letters only, and `\d` means ASCII digits, because Unicode case tables and digit classes are out of scope.
- The regular expressions are parameters:
  - the citation expressions and their matches
  - the party-name suffix rule
  - the court-name cleanup
  - the Bluebook case shape
  - the action layer's case pattern
  - the fenced-block expression
  - the year and case-name searches in the mock extractor

  Their properties hold for every matcher.
- `json.loads`, `float()` on strings and `str()` of composite values are parameters.
- Real numbers are exact. The source's floating-point rounding of the scores is not modelled.
- `get_citation_suggestions` is not modelled: no route or layer calls it.
- The `supported_formats` field of a batch normalization result is not modelled.
- MemoryLayer.ResetOneCategory, MemoryLayer.ResetAllAndUnknown, ServerMain.ResetPreferencesRoute: these restore the default table as written, but the source does not. `DEFAULT_PREFERENCES.copy()` (server/layers/memory_layer.py:97, 100, 104) is shallow, so the loaded preferences share their category dicts with the defaults. `_merge_preferences` (110-111) and `update_preferences` (163-164) update those shared dicts in place. A reset (198, 205) therefore restores the last values written, not the defaults. For example, setting `general.verbosity_level` to "detailed" and then sending `DELETE /api/preferences?category=general` leaves it "detailed". The model's values are immutable and do not show this.
- MemoryLayer.UpdatePreferences: an update pair whose key is a number, a boolean or null is treated as an error. The source stores such a non-string key in the category dict. The model's dict keys are strings.
- CitationNormalizer.ValidateCitationFormat: the `suggestions` field of the source's result is not modelled, because the source always leaves it empty.
- `pdf_processor` is not part of this model: PDF text comes into the upload path as the upload's contents.
- `config` is not part of this model beyond `PRIMARY_MODEL`, `FALLBACK_MODEL` and the allowed extensions.
- The health, schema, session and configuration routes are left out, because they only report state.
- `get_model_status` and `list_available_agents` are left out, because they only report state.
- The memory layer's `save_session`, `load_session` and `list_sessions` are file I/O and are left out. Saving preferences is a boolean parameter.
- The analyze route's calls into the layers after the guard are left out. Those calls are modelled by the layers' own members.
- `case_retriever` and `comparator` are registry entries only: the source has no implementation for them.
- DecisionLayer.DecideExecutionPlan: its own contract covers only the plan taken from the model. Every branch is stated by lemmas. DecisionLayer.DecideOnModelReply covers a model reply, including an invalid truthy plan returned as it stands. DecisionLayer.DecideOnModelError covers a model error, and DecisionLayer.RuleBasedPlanClean covers the rule-based fallback.
- ResponseFormatter.FormatExtractionResponse: states the success flag, version and defaults, not the copying of each individual field.

## Findings

| source | as written | input that shows it | evidently intended | confidence | as-written member | corrected member |
|---|---|---|---|---|---|---|
| server/layers/decision_layer.py:120-126 | `process_with_llm` is called with a `detail_level` keyword it does not accept, so the call raises `TypeError`; the `except` turns every request into "Decision-making failed", and the rule-based fallback is never reached | any request, e.g. "summarize this case" with default preferences | call `process_with_llm` without `detail_level`, falling back to the rule-based plan when no model answers | not executed | DecisionLayer.DecideAsWrittenAlwaysFails | DecisionLayer.DecideCorrectedWithoutModels |
| server/layers/action_layer.py:96-101 | the same extra `detail_level` keyword makes every extraction past the length guard fail with "Extraction failed: … unexpected keyword argument 'detail_level'" | any document of at least 100 non-blank characters | call the model and report its answer or its error | not executed | ActionLayer.ExtractAsWrittenFails | ActionLayer.ExtractCorrectedWithoutModels |
| server/layers/action_layer.py:285-290 | the same extra keyword makes every brief for valid extracted data fail with "Brief generation failed: …" | extracted data with facts, legal issues and holdings | call the model and report its answer or its error | not executed | ActionLayer.BriefAsWrittenFails | ActionLayer.BriefCorrectedWithoutModels |

Other behaviours the proofs bring out. They are modelled as written and are not listed above.

- **Case citations never use their template.** The case expression names its last group `court_year`, but every case template asks for `court` and `year`. Every matched case citation therefore falls back to its parts joined by spaces (CitationNormalizer.CaseCitationsFallBack).
- **Two different word counts.** The formatter's word count counts every string value and every string list item of the brief: key citations, the source case and anything else. The brief's own `word_count` counts only the four sections. The two agree only on a brief of exactly the four sections (ResponseFormatter.CountWordsOfBrief).
- **An empty upload name reads as too-short text.** An upload whose file name is empty is not reported as an invalid file. It yields empty text and is refused as too short (ServerMain.AnalyzeGuard).
- **The normalize route can crash on a dict.** A request whose `citations` is a dict with more than three keys crashes in the logging line, because a dict cannot be sliced (ServerMain.NormalizeGuard).
- **The citation normalizer agent is unused.** No route calls the stand-alone citation normalizer agent. The routes use the action layer's simpler normalizer.
