/** The response formatter (server/utils/response_formatter.py): the envelopes the
    server wraps agent results in. Each response is a record of the fields the
    source writes; a `.get` on a value that is not a dict, or a `len()` of a value
    without one, raises, and the formatter then answers `None`. The clock reading
    is a parameter. */
module ResponseFormatter {
  import opened Wrappers
  import opened Values
  import PyText
  import Briefs

  const Version := "1.0.0"
  const UnknownError := "UNKNOWN_ERROR"

  // ---------------------------------------------------------------------------
  // Word count.

  /** Words of the string items of a list; other items count nothing. */
  function ListWords(items: seq<Value>): nat {
    if items == [] then 0
    else (if items[0].Str? then PyText.WordCount(items[0].s) else 0) + ListWords(items[1..])
  }

  /** Words of one dict value: a string's words, a list's string items' words,
      nothing for anything else. */
  function ValueWords(v: Value): nat {
    match v
    case Str(s) => PyText.WordCount(s)
    case List(items) => ListWords(items)
    case _ => 0
  }

  function EntriesWords(es: Entries): nat {
    if es == [] then 0 else ValueWords(es[0].1) + EntriesWords(es[1..])
  }

  /** `_count_words(brief_data)`: the words of every string value and of every
      string item of a list value; a value that is not a dict has none. */
  function CountWords(data: Value): (n: nat)
    ensures !data.Dict? ==> n == 0
    ensures data.Dict? ==> n == EntriesWords(data.entries)
  {
    if data.Dict? then EntriesWords(data.entries) else 0
  }

  /** The count adds up over the entries: a dict's words are those of its two
      halves. */
  lemma {:induction false} EntriesWordsAppend(a: Entries, b: Entries)
    ensures EntriesWords(a + b) == EntriesWords(a) + EntriesWords(b)
  {
    if a != [] {
      assert (a + b)[0] == a[0] && (a + b)[1..] == a[1..] + b;
      EntriesWordsAppend(a[1..], b);
    } else {
      assert a + b == b;
    }
  }

  /** Entries whose values are neither strings nor lists add nothing. */
  lemma {:induction false} EntriesWordsOther(es: Entries)
    requires forall i :: 0 <= i < |es| ==> !es[i].1.Str? && !es[i].1.List?
    ensures EntriesWords(es) == 0
  {
    if es != [] {
      assert forall i :: 0 <= i < |es[1..]| ==> es[1..][i] == es[i + 1];
      EntriesWordsOther(es[1..]);
    }
  }

  lemma {:induction false} ListWordsAreItemWords(items: seq<Value>, show: Value -> string)
    requires forall i :: 0 <= i < |items| ==> items[i].Str?
    ensures ListWords(items) == Briefs.ItemWords(items, show)
  {
    if items != [] {
      assert forall i :: 0 <= i < |items[1..]| ==> items[1..][i] == items[i + 1];
      ListWordsAreItemWords(items[1..], show);
    }
  }

  /** On a brief of string sections and string reasoning points, the formatter
      counts what the brief's own `word_count` counts. */
  lemma CountWordsOfBrief(issue: string, facts: string, holding: string, reasoning: seq<Value>, show: Value -> string)
    requires forall i :: 0 <= i < |reasoning| ==> reasoning[i].Str?
    ensures var brief := SectionsBrief(issue, facts, holding, reasoning);
      CountWords(Dict(brief)) == Briefs.WordCount(brief, show)
  {
    BriefSideWords(issue, facts, holding, reasoning, show);
    FormatterSideWords(issue, facts, holding, reasoning);
    ListWordsAreItemWords(reasoning, show);
  }

  /** A brief holding exactly the four sections, in order. */
  function SectionsBrief(issue: string, facts: string, holding: string, reasoning: seq<Value>): Entries {
    [("issue", Str(issue)), ("facts", Str(facts)), ("holding", Str(holding)), ("reasoning", List(reasoning))]
  }

  lemma BriefSideWords(issue: string, facts: string, holding: string, reasoning: seq<Value>, show: Value -> string)
    ensures Briefs.WordCount(SectionsBrief(issue, facts, holding, reasoning), show)
      == PyText.WordCount(issue) + PyText.WordCount(facts) + PyText.WordCount(holding) + Briefs.ItemWords(reasoning, show)
  {
    var brief := SectionsBrief(issue, facts, holding, reasoning);
    SectionsBriefFinds(issue, facts, holding, reasoning);
    SectionOfString(brief, "issue", issue, show);
    SectionOfString(brief, "facts", facts, show);
    SectionOfString(brief, "holding", holding, show);
  }

  lemma SectionsBriefFinds(issue: string, facts: string, holding: string, reasoning: seq<Value>)
    ensures var brief := SectionsBrief(issue, facts, holding, reasoning);
      && Find(brief, "issue") == Some(Str(issue)) && Find(brief, "facts") == Some(Str(facts))
      && Find(brief, "holding") == Some(Str(holding)) && Find(brief, "reasoning") == Some(List(reasoning))
  {
    var brief := SectionsBrief(issue, facts, holding, reasoning);
    assert brief[0].0[0] == 'i' && brief[1].0[0] == 'f' && brief[2].0[0] == 'h' && brief[3].0[0] == 'r';
    FindAt(brief, 0);
    FindAt(brief, 1);
    FindAt(brief, 2);
    FindAt(brief, 3);
  }

  /** A string section counts its own words, the empty string included. */
  lemma SectionOfString(brief: Entries, k: string, s: string, show: Value -> string)
    requires Find(brief, k) == Some(Str(s))
    ensures Briefs.SectionWords(brief, k, show) == PyText.WordCount(s)
  {
  }

  lemma EntriesWordsCons(k: string, v: Value, es: Entries)
    ensures EntriesWords([(k, v)] + es) == ValueWords(v) + EntriesWords(es)
  {
    assert ([(k, v)] + es)[1..] == es;
  }

  lemma FormatterSideWords(issue: string, facts: string, holding: string, reasoning: seq<Value>)
    ensures EntriesWords(SectionsBrief(issue, facts, holding, reasoning))
      == PyText.WordCount(issue) + PyText.WordCount(facts) + PyText.WordCount(holding) + ListWords(reasoning)
  {
    var last: Entries := [("reasoning", List(reasoning))];
    EntriesWordsCons("reasoning", List(reasoning), []);
    EntriesWordsCons("holding", Str(holding), last);
    EntriesWordsCons("facts", Str(facts), [("holding", Str(holding))] + last);
    EntriesWordsCons("issue", Str(issue), [("facts", Str(facts))] + ([("holding", Str(holding))] + last));
    assert SectionsBrief(issue, facts, holding, reasoning) == [("issue", Str(issue))] + ([("facts", Str(facts))] + ([("holding", Str(holding))] + last));
  }

  // ---------------------------------------------------------------------------
  // Responses.

  /** `format_extraction_response`. */
  datatype ExtractionResponse = ExtractionResponse(
    success: Value, timestamp: string, version: string,
    extractedFields: Value, confidenceScore: Value, processingTime: Value, modelUsed: Value,
    documentType: Value, totalLength: Value, sectionsFound: Value)

  /** `format_brief_response`. */
  datatype BriefResponse = BriefResponse(
    success: Value, timestamp: string, version: string,
    brief: Value, citations: Value, confidenceScore: Value, wordCount: nat, processingTime: Value, modelUsed: Value,
    citationFormat: Value, totalCitations: nat, generationParameters: Value)

  /** `format_citation_response`. */
  datatype CitationResponse = CitationResponse(
    success: Value, timestamp: string, version: string,
    normalizedCitations: Value, formatUsed: Value, totalProcessed: Value, processingTime: Value,
    supportedFormats: Value, validationErrors: Value)

  /** `format_error_response`; `details` only when some were given. */
  datatype ErrorResponse = ErrorResponse(timestamp: string, version: string, message: string, code: string, details: Option<Value>)

  /** `create_success_response`; `message` and `metadata` only when given. */
  datatype SuccessResponse = SuccessResponse(timestamp: string, version: string, data: Value, message: Option<Value>, metadata: Option<Value>)

  /** `result.get(key, default)` on a dict. */
  function Field(result: Entries, key: string, default: Value): Value {
    Find(result, key).GetOr(default)
  }

  /** The `success` a formatted response carries: the result's own flag, `False`
      when it has none. */
  function SuccessOf(result: Entries): Value {
    Field(result, "success", Bool(false))
  }

  function FormatExtractionResponse(result: Entries, timestamp: string): (r: ExtractionResponse)
    ensures r.success == SuccessOf(result) && r.version == Version
    ensures !HasKey(result, "data") ==> r.extractedFields == Dict([])
    ensures !HasKey(result, "model_used") ==> r.modelUsed == Str("unknown")
  {
    ExtractionResponse(
      SuccessOf(result), timestamp, Version,
      Field(result, "data", Dict([])), Field(result, "confidence", Real(0.0)), Field(result, "processing_time", Int(0)),
      Field(result, "model_used", Str("unknown")),
      Field(result, "document_type", Str("unknown")), Field(result, "total_length", Int(0)), Field(result, "sections_found", List([])))
  }

  /** The `total_citations` of a brief response: the number of normalized
      citations, or 0 when the citation result or its data is missing or falsy;
      `None` when the data is not a dict or the citations have no length. */
  function TotalCitations(citation: Value): (r: Option<nat>)
    requires citation.Dict? || !Truthy(citation)
    ensures !Truthy(citation) ==> r == Some(0)
    ensures citation.Dict? && !Truthy(Field(citation.entries, "data", Null)) ==> r == Some(0)
    ensures r.None? <==>
      Truthy(citation) && Truthy(Field(citation.entries, "data", Null))
      && (!Field(citation.entries, "data", Null).Dict?
          || PyLen(Field(Field(citation.entries, "data", Null).entries, "normalized_citations", List([]))).None?)
  {
    if !Truthy(citation) then Some(0)
    else
      var data := Field(citation.entries, "data", Null);
      if !Truthy(data) then Some(0)
      else if !data.Dict? then None
      else PyLen(Field(data.entries, "normalized_citations", List([])))
  }

  /** `format_brief_response(brief_result, citation_result)`: the brief with its
      word count, and the citation result's data, format and count when there is a
      citation result. */
  function FormatBriefResponse(brief: Entries, citation: Value, timestamp: string): (r: Option<BriefResponse>)
    requires citation.Dict? || !Truthy(citation)
    ensures r.None? <==> TotalCitations(citation).None?
    ensures r.Some? ==> r.value.success == SuccessOf(brief) && r.value.totalCitations == TotalCitations(citation).value
    ensures r.Some? ==> r.value.wordCount == CountWords(Field(brief, "data", Dict([])))
    ensures r.Some? && !Truthy(citation) ==>
      r.value.citations == Dict([]) && r.value.citationFormat == Str("bluebook") && r.value.totalCitations == 0
  {
    var total :- TotalCitations(citation);
    var data := Field(brief, "data", Dict([]));
    Some(BriefResponse(
      SuccessOf(brief), timestamp, Version,
      data, if Truthy(citation) then Field(citation.entries, "data", Dict([])) else Dict([]),
      Field(brief, "confidence", Real(0.0)), CountWords(data), Field(brief, "processing_time", Int(0)),
      Field(brief, "model_used", Str("unknown")),
      if Truthy(citation) then Field(citation.entries, "format", Str("bluebook")) else Str("bluebook"),
      total, Field(brief, "parameters", Dict([]))))
  }

  /** `format_citation_response(citation_result)`; `None` when its data is not a
      dict. */
  function FormatCitationResponse(citation: Entries, timestamp: string): (r: Option<CitationResponse>)
    ensures r.None? <==> !Field(citation, "data", Dict([])).Dict?
    ensures r.Some? ==> r.value.success == SuccessOf(citation)
    ensures r.Some? ==> r.value.normalizedCitations == Field(Field(citation, "data", Dict([])).entries, "normalized_citations", List([]))
  {
    var data := Field(citation, "data", Dict([]));
    if !data.Dict? then None
    else
      Some(CitationResponse(
        SuccessOf(citation), timestamp, Version,
        Field(data.entries, "normalized_citations", List([])), Field(citation, "format", Str("bluebook")),
        Field(citation, "total_processed", Int(0)), Field(citation, "processing_time", Int(0)),
        Field(citation, "supported_formats", List([])), Field(citation, "validation_errors", List([]))))
  }

  /** The two formatters agree: the brief response counts exactly the citations
      the citation response lists. */
  lemma CitationCountsAgree(citation: Entries, items: seq<Value>, timestamp: string)
    requires Field(citation, "data", Dict([])).Dict? && Truthy(Field(citation, "data", Dict([])))
    requires Field(Field(citation, "data", Dict([])).entries, "normalized_citations", List([])) == List(items)
    ensures FormatCitationResponse(citation, timestamp).value.normalizedCitations == List(items)
    ensures TotalCitations(Dict(citation)) == Some(|items|)
  {
    assert HasKey(citation, "data");
  }

  /** `format_error_response(message, code, details)`: never a success; the code
      defaults to `UNKNOWN_ERROR` when none (or an empty one) is given, and the
      details appear only when they are truthy. */
  function FormatErrorResponse(message: string, code: Option<string>, details: Value, timestamp: string): (r: ErrorResponse)
    ensures r.message == message && r.version == Version
    ensures code.Some? && code.value != [] ==> r.code == code.value
    ensures code.None? || code.value == [] ==> r.code == UnknownError
    ensures r.details.Some? <==> Truthy(details)
    ensures r.details.Some? ==> r.details.value == details
  {
    ErrorResponse(timestamp, Version, message,
      if code.Some? && code.value != [] then code.value else UnknownError,
      if Truthy(details) then Some(details) else None)
  }

  /** `create_success_response(data, message, metadata)`: always a success with
      the data as given; the message and metadata appear only when truthy. */
  function CreateSuccessResponse(data: Value, message: Value, metadata: Value, timestamp: string): (r: SuccessResponse)
    ensures r.data == data && r.version == Version
    ensures r.message.Some? <==> Truthy(message)
    ensures r.metadata.Some? <==> Truthy(metadata)
    ensures r.message.Some? ==> r.message.value == message
    ensures r.metadata.Some? ==> r.metadata.value == metadata
  {
    SuccessResponse(timestamp, Version, data,
      if Truthy(message) then Some(message) else None,
      if Truthy(metadata) then Some(metadata) else None)
  }

  /** The `success` of the envelopes: the three result formatters copy the
      result's flag (`False` when it has none) and the success envelope always
      says `True`. */
  lemma SuccessDefaults(result: Entries, timestamp: string)
    requires !HasKey(result, "success")
    ensures FormatExtractionResponse(result, timestamp).success == Bool(false)
    ensures FormatBriefResponse(result, Null, timestamp).value.success == Bool(false)
  {
  }
}
