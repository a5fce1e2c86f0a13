/** The action layer (server/layers/action_layer.py): legal extraction, brief
    generation and citation normalization as the orchestrator runs them. The
    model call, its prompt and the clock are parameters; what the layer does
    around them is modelled. */
module ActionLayer {
  import opened Wrappers
  import opened Values
  import PyText
  import PerceptionLayer
  import DecisionLayer
  import Extraction
  import Briefs

  /** How an action ends: its result; a reply with `success` false and an error
      the model gives in full; a reply built by the action's `except` handler from
      an exception whose text is not modelled (the error is `prefix` followed by
      that text); or an exception that escapes the action. */
  datatype Outcome<T> = Done(value: T) | Failed(error: string) | Crashed(prefix: string) | Escaped

  /** The model call: given the preferred model and the temperature, how
      `process_with_llm` comes back. */
  type Call = (Value, real) -> DecisionLayer.LlmCall

  const ShortDocumentError := "Document text is too short or empty (minimum 100 characters)"
  const ParseError := "Failed to parse LLM response as JSON"
  const ExtractionPrefix := "Extraction failed: "
  const BriefPrefix := "Brief generation failed: "
  const NormalizationPrefix := "Citation normalization failed: "
  const LlmFailurePrefix := "LLM processing failed: "

  /** `float(v)`: numbers and booleans convert, a string converts when `parse`
      reads it, anything else raises. */
  function ToFloat(v: Value, parse: string -> Option<real>): (r: Option<real>)
    ensures v.Bool? || v.Int? || v.Real? ==> r == AsNumber(v)
    ensures !(v.Bool? || v.Int? || v.Real? || v.Str?) ==> r.None?
  {
    if v.Str? then parse(v.s) else AsNumber(v)
  }

  /** What the action reads from the preferences before calling the model: the
      language and verbosity for the prompt (read, then left to the prompt), the
      preferred model, and the temperature with the action's default. `None` where
      one of the lookups raises. */
  function LlmSettings(preferences: Value, defaultTemperature: real, parse: string -> Option<real>): (r: Option<(Value, real)>)
    ensures preferences == Dict([]) ==> r == Some((Str("gemini"), defaultTemperature))
    ensures !preferences.Dict? ==> r.None?
    ensures r.Some? ==> DecisionLayer.PreferredModel(preferences) == Some(r.value.0)
  {
    if !preferences.Dict? then None
    else
      var general := Find(preferences.entries, "general").GetOr(Dict([]));
      var llm := Find(preferences.entries, "llm").GetOr(Dict([]));
      if !general.Dict? || !llm.Dict? then None
      else
        var preferred := Find(llm.entries, "primary_model").GetOr(Str("gemini"));
        match ToFloat(Find(llm.entries, "temperature").GetOr(Real(defaultTemperature)), parse)
        case None => None
        case Some(temperature) => Some((preferred, temperature))
  }

  /** The preferences an action works with: the ones passed when truthy, else the
      stored ones. */
  function Resolve(preferences: Value, stored: Value): Value {
    if Truthy(preferences) then preferences else stored
  }

  // ---------------------------------------------------------------------------
  // Legal extraction.

  datatype Extracted = Extracted(data: Entries, confidence: real, modelUsed: string)

  /** `_enhance_extraction_data` at time `timestamp`: list fields coerced to lists,
      string fields to strings ("Not found" for falsy ones), then the metadata with
      the keys held before it was added. */
  function EnhanceExtraction(data: Entries, show: Value -> string, timestamp: real): (r: Entries)
    ensures Find(r, "metadata") == Some(Dict([("extraction_timestamp", Real(timestamp)),
      ("sections_extracted", StrList(Keys(data)))]))
  {
    var coerced := Extraction.CoerceAll(data, Extraction.ActionListFields, Extraction.ActionStringFields, "Not found", show);
    Put(coerced, "metadata", Dict([("extraction_timestamp", Real(timestamp)), ("sections_extracted", StrList(Keys(coerced)))]))
  }

  /** Every key but `metadata` is kept, and a present list or string field now holds
      a list or a string. */
  lemma EnhanceExtractionFind(data: Entries, show: Value -> string, timestamp: real, k: string)
    requires k != "metadata"
    ensures var r := Find(EnhanceExtraction(data, show, timestamp), k);
      (r.Some? <==> HasKey(data, k))
      && (k in Extraction.ActionListFields && r.Some? ==> r.value == Extraction.CoerceList(Find(data, k).value, show))
      && (k in Extraction.ActionStringFields && r.Some? ==> r.value == Extraction.CoerceString(Find(data, k).value, show, "Not found"))
      && (k !in Extraction.ActionListFields && k !in Extraction.ActionStringFields ==> r == Find(data, k))
  {
    var coerced := Extraction.CoerceAll(data, Extraction.ActionListFields, Extraction.ActionStringFields, "Not found", show);
    var meta := Dict([("extraction_timestamp", Real(timestamp)), ("sections_extracted", StrList(Keys(coerced)))]);
    FindPutOther(coerced, "metadata", meta, k);
    Extraction.ActionFieldsDisjoint(k);
    Extraction.CoerceAllFind(data, Extraction.ActionListFields, Extraction.ActionStringFields, "Not found", show, k);
  }

  /** The enhanced keys are the extracted ones with `metadata` appended when it was
      not among them. */
  lemma EnhanceExtractionKeys(data: Entries, show: Value -> string, timestamp: real)
    ensures Keys(EnhanceExtraction(data, show, timestamp)) ==
      Keys(data) + (if HasKey(data, "metadata") then [] else ["metadata"])
  {
    var coerced := Extraction.CoerceAll(data, Extraction.ActionListFields, Extraction.ActionStringFields, "Not found", show);
    var meta := Dict([("extraction_timestamp", Real(timestamp)), ("sections_extracted", StrList(Keys(coerced)))]);
    KeysHasKey(coerced, "metadata");
    KeysHasKey(data, "metadata");
    if HasKey(coerced, "metadata") {
      PutExistingKeys(coerced, "metadata", meta);
    } else {
      PutAbsentKeys(coerced, "metadata", meta);
    }
  }

  /** The extracted answer, once parsed: a truthy dict gets its score and the
      enhancement; a falsy answer is a parse failure; anything else raises. */
  function FinishExtraction(parsed: Option<Value>, modelUsed: string, show: Value -> string, timestamp: real): (r: Outcome<Extracted>)
    ensures parsed.None? || !Truthy(parsed.value) <==> r == Failed(ParseError)
    ensures r.Done? <==> parsed.Some? && parsed.value.Dict? && Truthy(parsed.value)
                         && Extraction.Confidence(parsed.value.entries).Some?
    ensures r.Done? ==> 0.0 <= r.value.confidence <= 1.0 && HasKey(r.value.data, "metadata")
    ensures r.Done? ==>
      r.value.modelUsed == modelUsed
      && r.value.confidence == Extraction.Confidence(parsed.value.entries).value
      && r.value.data == EnhanceExtraction(parsed.value.entries, show, timestamp)
  {
    match parsed
    case None => Failed(ParseError)
    case Some(v) =>
      if !Truthy(v) then Failed(ParseError)
      else if !v.Dict? then Crashed(ExtractionPrefix)
      else
        match Extraction.Confidence(v.entries)
        case None => Crashed(ExtractionPrefix)
        case Some(c) => Done(Extracted(EnhanceExtraction(v.entries, show, timestamp), c, modelUsed))
  }

  /** The extraction past the length guard, on the text the model is given. */
  function ExtractText(text: string, preferences: Value, call: string -> Call, parse: string -> Option<real>,
                       loads: string -> Option<Value>, fence: string -> Option<string>,
                       show: Value -> string, timestamp: real): (r: Outcome<Extracted>)
    ensures r.Done? <==>
      LlmSettings(preferences, 0.1, parse).Some?
      && (var settings := LlmSettings(preferences, 0.1, parse).value;
          var answer := call(text)(settings.0, settings.1);
          answer.CallReturned? && answer.result.LlmOk?
          && FinishExtraction(PerceptionLayer.ParseJsonResponse(answer.result.response, loads, fence),
                              answer.result.modelUsed, show, timestamp).Done?)
    ensures r.Done? ==> 0.0 <= r.value.confidence <= 1.0 && HasKey(r.value.data, "metadata")
  {
    match LlmSettings(preferences, 0.1, parse)
    case None => Crashed(ExtractionPrefix)
    case Some(settings) =>
      match call(text)(settings.0, settings.1)
      case CallRaised(message) => Failed(ExtractionPrefix + message)
      case CallReturned(result) =>
        match result
        case LlmErr(error) => Failed(LlmFailurePrefix + error)
        case LlmOk(response, modelUsed) =>
          FinishExtraction(PerceptionLayer.ParseJsonResponse(response, loads, fence), modelUsed, show, timestamp)
  }

  /** A model call that returns an error ends the extraction with that error. */
  lemma ExtractTextOnError(text: string, preferences: Value, call: string -> Call, parse: string -> Option<real>,
                           loads: string -> Option<Value>, fence: string -> Option<string>,
                           show: Value -> string, timestamp: real, error: string)
    requires LlmSettings(preferences, 0.1, parse).Some?
    requires var settings := LlmSettings(preferences, 0.1, parse).value;
      call(text)(settings.0, settings.1) == DecisionLayer.CallReturned(PerceptionLayer.LlmErr(error))
    ensures ExtractText(text, preferences, call, parse, loads, fence, show, timestamp) == Failed(LlmFailurePrefix + error)
  {
  }

  /** `extract_legal_information(document_text, preferences)`: the length guard,
      then the extraction on the truncated text with the passed or else the stored
      preferences. `call` is given the text the prompt carries, `parse` reads a
      number for `float()`, and `loads` and `fence` are those of
      `parse_json_response`. */
  function ExtractLegalInformation(document: string, preferences: Value, stored: Value,
                                   call: string -> Call, parse: string -> Option<real>,
                                   loads: string -> Option<Value>, fence: string -> Option<string>,
                                   show: Value -> string, timestamp: real): (r: Outcome<Extracted>)
    ensures Extraction.TooShort(document) ==> r == Failed(ShortDocumentError)
    ensures r.Done? ==> 0.0 <= r.value.confidence <= 1.0 && HasKey(r.value.data, "metadata")
  {
    if Extraction.TooShort(document) then Failed(ShortDocumentError)
    else ExtractText(Extraction.Truncate(document), Resolve(preferences, stored), call, parse, loads, fence, show, timestamp)
  }

  /** Past the length guard the extraction runs on the truncated text, with the
      passed preferences when truthy and the stored ones otherwise. */
  lemma ExtractPastGuard(document: string, preferences: Value, stored: Value,
                         call: string -> Call, parse: string -> Option<real>,
                         loads: string -> Option<Value>, fence: string -> Option<string>,
                         show: Value -> string, timestamp: real)
    requires !Extraction.TooShort(document)
    ensures ExtractLegalInformation(document, preferences, stored, call, parse, loads, fence, show, timestamp)
         == ExtractText(Extraction.Truncate(document), Resolve(preferences, stored), call, parse, loads, fence, show, timestamp)
  {
  }

  /** The model never sees past the 50000th character: two long documents that
      pass the guard and share their first 50000 characters are treated alike. */
  lemma ExtractSeesOnlyPrefix(d1: string, d2: string, preferences: Value, stored: Value,
                              call: string -> Call, parse: string -> Option<real>,
                              loads: string -> Option<Value>, fence: string -> Option<string>,
                              show: Value -> string, timestamp: real)
    requires !Extraction.TooShort(d1) && !Extraction.TooShort(d2)
    requires |d1| > Extraction.MaxDocumentLength && |d2| > Extraction.MaxDocumentLength
    requires d1[..Extraction.MaxDocumentLength] == d2[..Extraction.MaxDocumentLength]
    ensures ExtractLegalInformation(d1, preferences, stored, call, parse, loads, fence, show, timestamp)
         == ExtractLegalInformation(d2, preferences, stored, call, parse, loads, fence, show, timestamp)
  {
    assert Extraction.Truncate(d1) == Extraction.Truncate(d2);
  }

  /** The call as the source writes it: `detail_level` is passed to
      `process_with_llm`, which has no such parameter, so the call raises. */
  function CallAsWritten(text: string): Call {
    (preferred: Value, temperature: real) => DecisionLayer.CallAsWritten(preferred)
  }

  /** The call as intended: `process_with_llm` with the preferred model. */
  function CallCorrected(cfg: PerceptionLayer.ModelConfig, live: PerceptionLayer.Liveness,
                         gemini: nat -> PerceptionLayer.GeminiReply, ollama: nat -> PerceptionLayer.OllamaReply): string -> Call
  {
    (text: string) => (preferred: Value, temperature: real) =>
      DecisionLayer.CallReturned(PerceptionLayer.ProcessWithLlm(preferred, cfg, live, gemini, ollama, 2).result)
  }

  /** As written, extraction never succeeds: past the guard and the preferences
      every document fails with the `TypeError` of the call. */
  lemma ExtractAsWrittenFails(document: string, preferences: Value, stored: Value, parse: string -> Option<real>,
                              loads: string -> Option<Value>, fence: string -> Option<string>,
                              show: Value -> string, timestamp: real)
    ensures var r := ExtractLegalInformation(document, preferences, stored, CallAsWritten, parse, loads, fence, show, timestamp);
      !r.Done?
      && (!Extraction.TooShort(document) && LlmSettings(Resolve(preferences, stored), 0.1, parse).Some? ==>
            r == Failed(ExtractionPrefix + DecisionLayer.CallAsWritten(Null).message))
  {
  }

  /** With the call corrected and no backend live, a document that passes the guard
      fails with "No LLM models available". */
  lemma ExtractCorrectedWithoutModels(document: string, preferences: Value, stored: Value, parse: string -> Option<real>,
                                      cfg: PerceptionLayer.ModelConfig, gemini: nat -> PerceptionLayer.GeminiReply,
                                      ollama: nat -> PerceptionLayer.OllamaReply,
                                      loads: string -> Option<Value>, fence: string -> Option<string>,
                                      show: Value -> string, timestamp: real)
    requires !Extraction.TooShort(document) && LlmSettings(Resolve(preferences, stored), 0.1, parse).Some?
    ensures ExtractLegalInformation(document, preferences, stored,
                                    CallCorrected(cfg, PerceptionLayer.Liveness(false, false), gemini, ollama),
                                    parse, loads, fence, show, timestamp)
         == Failed(LlmFailurePrefix + "No LLM models available")
  {
    var prefs := Resolve(preferences, stored);
    var settings := LlmSettings(prefs, 0.1, parse).value;
    var call := CallCorrected(cfg, PerceptionLayer.Liveness(false, false), gemini, ollama);
    var text := Extraction.Truncate(document);
    PerceptionLayer.NothingLive(settings.0, cfg, gemini, ollama, 2);
    assert call(text)(settings.0, settings.1)
        == DecisionLayer.CallReturned(PerceptionLayer.LlmErr("No LLM models available"));
    ExtractTextOnError(text, prefs, call, parse, loads, fence, show, timestamp, "No LLM models available");
  }

  // ---------------------------------------------------------------------------
  // Brief generation.

  datatype Brief = Brief(data: Entries, modelUsed: string)

  /** The parsed brief: a truthy dict is enhanced; a falsy answer is a parse
      failure; anything else raises. */
  function FinishBrief(parsed: Option<Value>, extracted: Entries, modelUsed: string,
                       show: Value -> string, timestamp: real): Outcome<Brief>
  {
    match parsed
    case None => Failed(ParseError)
    case Some(v) =>
      if !Truthy(v) then Failed(ParseError)
      else if !v.Dict? then Crashed(BriefPrefix)
      else
        match Briefs.Enhance(v.entries, extracted, show, timestamp, false)
        case None => Crashed(BriefPrefix)
        case Some(brief) => Done(Brief(brief, modelUsed))
  }

  /** `generate_legal_brief(extracted_data, preferences, detail_level)`. At the
      `detailed` level the keys of the data are listed before the `try`, so data
      that is not a dict escapes the action. */
  function GenerateLegalBrief(extracted: Value, preferences: Value, stored: Value, detailed: bool,
                              call: Call, parse: string -> Option<real>,
                              loads: string -> Option<Value>, fence: string -> Option<string>,
                              show: Value -> string, timestamp: real): (r: Outcome<Brief>)
    ensures detailed && !extracted.Dict? ==> r == Escaped
    ensures r.Done? ==> extracted.Dict? && Briefs.CheckInput(extracted).None?
    ensures (extracted.Dict? || (!detailed && !Truthy(extracted))) && Briefs.CheckInput(extracted).Some?
      ==> r == Failed(Briefs.CheckInput(extracted).value)
  {
    if detailed && !extracted.Dict? then Escaped
    else if Truthy(extracted) && !extracted.Dict? then Crashed(BriefPrefix)
    else
      match Briefs.CheckInput(extracted)
      case Some(error) => Failed(error)
      case None =>
        match LlmSettings(Resolve(preferences, stored), 0.2, parse)
        case None => Crashed(BriefPrefix)
        case Some(settings) =>
          match call(settings.0, settings.1)
          case CallRaised(message) => Failed(BriefPrefix + message)
          case CallReturned(result) =>
            match result
            case LlmErr(error) => Failed(LlmFailurePrefix + error)
            case LlmOk(response, modelUsed) =>
              FinishBrief(PerceptionLayer.ParseJsonResponse(response, loads, fence), extracted.entries, modelUsed, show, timestamp)
  }

  /** Past the input check, the model's answer decides the outcome: a call that
      raises fails with its message, a model error fails with the model's error,
      and a reply is finished into the brief (or fails the way finishing does). */
  lemma GenerateOnModelAnswer(extracted: Value, preferences: Value, stored: Value, detailed: bool,
                              call: Call, parse: string -> Option<real>,
                              loads: string -> Option<Value>, fence: string -> Option<string>,
                              show: Value -> string, timestamp: real)
    requires extracted.Dict? && Briefs.CheckInput(extracted).None?
    requires LlmSettings(Resolve(preferences, stored), 0.2, parse).Some?
    ensures var settings := LlmSettings(Resolve(preferences, stored), 0.2, parse).value;
      var answer := call(settings.0, settings.1);
      var r := GenerateLegalBrief(extracted, preferences, stored, detailed, call, parse, loads, fence, show, timestamp);
      (answer.CallRaised? ==> r == Failed(BriefPrefix + answer.message))
      && (answer.CallReturned? && answer.result.LlmErr? ==> r == Failed(LlmFailurePrefix + answer.result.error))
      && (answer.CallReturned? && answer.result.LlmOk? ==>
            r == FinishBrief(PerceptionLayer.ParseJsonResponse(answer.result.response, loads, fence),
                             extracted.entries, answer.result.modelUsed, show, timestamp))
  {
  }

  /** A generated brief carries all four sections and its key citations. */
  lemma GeneratedBriefShape(extracted: Value, preferences: Value, stored: Value, detailed: bool,
                            call: Call, parse: string -> Option<real>,
                            loads: string -> Option<Value>, fence: string -> Option<string>,
                            show: Value -> string, timestamp: real, section: string)
    requires section in Briefs.Sections
    ensures var r := GenerateLegalBrief(extracted, preferences, stored, detailed, call, parse, loads, fence, show, timestamp);
      r.Done? ==> HasKey(r.value.data, section) && HasKey(r.value.data, "key_citations")
  {
    var r := GenerateLegalBrief(extracted, preferences, stored, detailed, call, parse, loads, fence, show, timestamp);
    if r.Done? {
      var settings := LlmSettings(Resolve(preferences, stored), 0.2, parse).value;
      var response := call(settings.0, settings.1).result.response;
      var parsed := PerceptionLayer.ParseJsonResponse(response, loads, fence).value;
      Briefs.EnhanceShape(parsed.entries, extracted.entries, show, timestamp, false, section);
    }
  }

  /** As written, brief generation never succeeds: data that passes the input
      check fails with the `TypeError` of the call. */
  lemma BriefAsWrittenFails(extracted: Value, preferences: Value, stored: Value, detailed: bool,
                            parse: string -> Option<real>, loads: string -> Option<Value>, fence: string -> Option<string>,
                            show: Value -> string, timestamp: real)
    ensures var r := GenerateLegalBrief(extracted, preferences, stored, detailed, CallAsWritten(""), parse, loads, fence, show, timestamp);
      !r.Done?
      && (extracted.Dict? && Briefs.CheckInput(extracted).None? && LlmSettings(Resolve(preferences, stored), 0.2, parse).Some? ==>
            r == Failed(BriefPrefix + DecisionLayer.CallAsWritten(Null).message))
  {
  }

  /** With the call corrected and no backend live, data that passes the input
      check fails with "No LLM models available". */
  lemma BriefCorrectedWithoutModels(extracted: Value, preferences: Value, stored: Value, detailed: bool,
                                    cfg: PerceptionLayer.ModelConfig, gemini: nat -> PerceptionLayer.GeminiReply,
                                    ollama: nat -> PerceptionLayer.OllamaReply,
                                    parse: string -> Option<real>, loads: string -> Option<Value>, fence: string -> Option<string>,
                                    show: Value -> string, timestamp: real)
    requires extracted.Dict? && Briefs.CheckInput(extracted).None?
    requires LlmSettings(Resolve(preferences, stored), 0.2, parse).Some?
    ensures GenerateLegalBrief(extracted, preferences, stored, detailed,
                               CallCorrected(cfg, PerceptionLayer.Liveness(false, false), gemini, ollama)(""),
                               parse, loads, fence, show, timestamp)
         == Failed(LlmFailurePrefix + "No LLM models available")
  {
    var settings := LlmSettings(Resolve(preferences, stored), 0.2, parse).value;
    PerceptionLayer.NothingLive(settings.0, cfg, gemini, ollama, 2);
  }

  // ---------------------------------------------------------------------------
  // Citation normalization.

  /** The groups of the case-citation expression: parties, volume, reporter, page
      and the optional parenthesised court and year. */
  datatype CaseParts = CaseParts(plaintiff: string, defendant: string, volume: string, reporter: string,
                                 page: string, courtYear: Option<string>)

  datatype Kind = CaseCitation | Generic | ErrorKind

  function KindName(k: Kind): string {
    match k
    case CaseCitation => "case_citation"
    case Generic => "generic"
    case ErrorKind => "error"
  }

  datatype Normalized = Normalized(original: Value, normalized: Value, kind: Kind, confidence: real, format: Value)

  /** `P v. D, V R P` followed by ` (court year)` when that group matched. */
  function CaseText(p: CaseParts): string {
    p.plaintiff + " v. " + p.defendant + ", " + p.volume + " " + p.reporter + " " + p.page
    + (if p.courtYear.Some? && p.courtYear.value != "" then " (" + p.courtYear.value + ")" else "")
  }

  /** `_normalize_single_citation(citation, format_type)`: the stripped citation,
      rewritten from its parts when the case expression (`caseMatch`, a search)
      matches, else with its whitespace runs collapsed. Both branches of the
      format test build the same text. */
  function NormalizeSingle(citation: string, format: Value, caseMatch: string -> Option<CaseParts>): (r: Normalized)
    ensures r.original == Str(PyText.Strip(citation)) && r.format == format && r.normalized.Str?
    ensures r.kind == CaseCitation <==> caseMatch(PyText.Strip(citation)).Some?
    ensures r.kind == CaseCitation ==> r.confidence == 0.9
    ensures r.kind != CaseCitation ==> r.kind == Generic && r.confidence == 0.3
  {
    var c := PyText.Strip(citation);
    match caseMatch(c)
    case Some(p) => Normalized(Str(c), Str(CaseText(p)), CaseCitation, 0.9, format)
    case None => Normalized(Str(c), Str(PyText.Strip(PyText.Collapse(c))), Generic, 0.3, format)
  }

  /** A generic citation keeps its words: only the whitespace between them
      changes. */
  lemma GenericKeepsWords(citation: string, format: Value, caseMatch: string -> Option<CaseParts>)
    ensures var r := NormalizeSingle(citation, format, caseMatch);
      r.kind == Generic ==> PyText.Words(r.normalized.s) == PyText.Words(citation)
  {
    var c := PyText.Strip(citation);
    if caseMatch(c).None? {
      PyText.WordsOfCleanup(citation);
      assert NormalizeSingle(citation, format, caseMatch).normalized == Str(PyText.Strip(PyText.Collapse(c)));
    }
  }

  /** One item of the per-citation loop at position `i` (counting from 0): a string
      is normalized; any other value is kept as it is, typed `error`, and reported
      as `Citation <i+1>: <message>`. */
  function NormalizeItem(item: Value, i: nat, format: Value, caseMatch: string -> Option<CaseParts>): (r: (Normalized, seq<string>))
    ensures r.0.kind == ErrorKind <==> !item.Str?
    ensures r.1 == [] <==> item.Str?
    ensures !item.Str? ==> r.0 == Normalized(item, item, ErrorKind, 0.0, format)
  {
    if item.Str? then (NormalizeSingle(item.s, format, caseMatch), [])
    else (Normalized(item, item, ErrorKind, 0.0, format), ["Citation " + PyText.NatToString(i + 1) + ": " + NoStripMessage(item)])
  }

  /** The per-citation loop over `items`, the first of them at position `i`. */
  function NormalizeEach(items: seq<Value>, i: nat, format: Value, caseMatch: string -> Option<CaseParts>): (r: (seq<Normalized>, seq<string>))
    ensures |r.0| == |items|
    decreases |items|
  {
    if items == [] then ([], [])
    else
      var first := NormalizeItem(items[0], i, format, caseMatch);
      var rest := NormalizeEach(items[1..], i + 1, format, caseMatch);
      ([first.0] + rest.0, first.1 + rest.1)
  }

  /** One step of the loop: the first item, then the rest from the next position. */
  lemma NormalizeEachCons(items: seq<Value>, i: nat, format: Value, caseMatch: string -> Option<CaseParts>)
    requires items != []
    ensures var first := NormalizeItem(items[0], i, format, caseMatch);
      var rest := NormalizeEach(items[1..], i + 1, format, caseMatch);
      NormalizeEach(items, i, format, caseMatch) == ([first.0] + rest.0, first.1 + rest.1)
  {
  }

  /** The loop gives one entry per item, in order. */
  lemma {:induction false} NormalizeEachAt(items: seq<Value>, i: nat, format: Value, caseMatch: string -> Option<CaseParts>, j: nat)
    requires j < |items|
    ensures NormalizeEach(items, i, format, caseMatch).0[j] == NormalizeItem(items[j], i + j, format, caseMatch).0
    decreases |items|
  {
    NormalizeEachCons(items, i, format, caseMatch);
    if j > 0 {
      NormalizeEachAt(items[1..], i + 1, format, caseMatch, j - 1);
    }
  }

  /** A loop over strings only reports nothing. */
  lemma {:induction false} NormalizeEachClean(items: seq<Value>, i: nat, format: Value, caseMatch: string -> Option<CaseParts>)
    requires forall j :: 0 <= j < |items| ==> items[j].Str?
    ensures NormalizeEach(items, i, format, caseMatch).1 == []
    decreases |items|
  {
    if items != [] {
      var rest := items[1..];
      forall j | 0 <= j < |rest|
        ensures rest[j].Str?
      {
        assert rest[j] == items[j + 1];
      }
      NormalizeEachClean(rest, i + 1, format, caseMatch);
      assert items[0].Str?;
      assert NormalizeItem(items[0], i, format, caseMatch).1 == [];
      NormalizeEachCons(items, i, format, caseMatch);
    }
  }

  /** An item that is not a string makes the loop report an error. */
  lemma {:induction false} NormalizeEachReports(items: seq<Value>, i: nat, format: Value, caseMatch: string -> Option<CaseParts>, j: nat)
    requires j < |items| && !items[j].Str?
    ensures NormalizeEach(items, i, format, caseMatch).1 != []
    decreases |items|
  {
    NormalizeEachCons(items, i, format, caseMatch);
    if j > 0 {
      assert items[1..][j - 1] == items[j];
      NormalizeEachReports(items[1..], i + 1, format, caseMatch, j - 1);
    }
  }

  /** The loop reports an error exactly when some item is not a string. */
  lemma NormalizeEachErrors(items: seq<Value>, i: nat, format: Value, caseMatch: string -> Option<CaseParts>)
    ensures NormalizeEach(items, i, format, caseMatch).1 == [] <==> forall j :: 0 <= j < |items| ==> items[j].Str?
  {
    if forall j :: 0 <= j < |items| ==> items[j].Str? {
      NormalizeEachClean(items, i, format, caseMatch);
    } else {
      var j :| 0 <= j < |items| && !items[j].Str?;
      NormalizeEachReports(items, i, format, caseMatch, j);
    }
  }

  /** The `data` of a normalization reply, and its `validation_errors` (absent when
      there was nothing to normalize). */
  datatype Normalization = Normalization(citations: seq<Normalized>, format: Value, total: nat, errors: Option<seq<string>>)

  /** `preferences.get('citation', {}).get('format', 'bluebook')`; `None` where it
      raises. */
  function CitationFormat(preferences: Value): (r: Option<Value>)
    ensures preferences == Dict([]) ==> r == Some(Str("bluebook"))
    ensures !preferences.Dict? ==> r.None?
  {
    var citationPreferences :- Get(preferences, "citation", Dict([]));
    Get(citationPreferences, "format", Str("bluebook"))
  }

  /** `normalize_citations(citations, preferences)`: the format comes from the
      citation preferences; no citations give an empty result without a list of
      errors; otherwise every item is normalized in order and counted. */
  function NormalizeCitations(citations: Value, preferences: Value, stored: Value,
                              caseMatch: string -> Option<CaseParts>): (r: Outcome<Normalization>)
    ensures !r.Failed? && !r.Escaped?
    ensures r.Crashed? <==>
      CitationFormat(Resolve(preferences, stored)).None? || (Truthy(citations) && Iterate(citations).None?)
    ensures r.Done? ==> r.value.format == CitationFormat(Resolve(preferences, stored)).value
    ensures r.Done? && !Truthy(citations) ==> r.value.citations == [] && r.value.total == 0 && r.value.errors.None?
    ensures r.Done? && Truthy(citations) ==>
      r.value.total == |Iterate(citations).value| == |r.value.citations| && r.value.errors.Some?
  {
    match CitationFormat(Resolve(preferences, stored))
    case None => Crashed(NormalizationPrefix)
    case Some(format) =>
      if !Truthy(citations) then Done(Normalization([], format, 0, None))
      else
        match Iterate(citations)
        case None => Crashed(NormalizationPrefix)
        case Some(items) =>
          var each := NormalizeEach(items, 0, format, caseMatch);
          Done(Normalization(each.0, format, |items|, Some(each.1)))
  }

  /** A non-empty list goes through the per-citation loop from position 0. */
  lemma NormalizeList(items: seq<Value>, preferences: Value, stored: Value, caseMatch: string -> Option<CaseParts>)
    requires items != []
    requires CitationFormat(Resolve(preferences, stored)).Some?
    ensures var each := NormalizeEach(items, 0, CitationFormat(Resolve(preferences, stored)).value, caseMatch);
      NormalizeCitations(List(items), preferences, stored, caseMatch)
        == Done(Normalization(each.0, CitationFormat(Resolve(preferences, stored)).value, |items|, Some(each.1)))
  {
    assert Truthy(List(items));
    assert Iterate(List(items)) == Some(items);
  }

  /** A list of strings normalizes without errors, each citation to its own entry
      in order, every entry tagged with the preferred format. */
  lemma NormalizeStrings(items: seq<Value>, preferences: Value, stored: Value, caseMatch: string -> Option<CaseParts>, j: nat)
    requires items != [] && j < |items|
    requires forall k :: 0 <= k < |items| ==> items[k].Str?
    requires CitationFormat(Resolve(preferences, stored)).Some?
    ensures var r := NormalizeCitations(List(items), preferences, stored, caseMatch);
      r.Done? && r.value.errors == Some([]) && |r.value.citations| == |items|
      && r.value.citations[j] == NormalizeSingle(items[j].s, CitationFormat(Resolve(preferences, stored)).value, caseMatch)
  {
    var format := CitationFormat(Resolve(preferences, stored)).value;
    NormalizeList(items, preferences, stored, caseMatch);
    NormalizeEachAt(items, 0, format, caseMatch, j);
    NormalizeEachErrors(items, 0, format, caseMatch);
    assert NormalizeItem(items[j], j, format, caseMatch).0 == NormalizeSingle(items[j].s, format, caseMatch);
  }
}
