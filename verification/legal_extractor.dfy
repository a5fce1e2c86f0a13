/** The extractor agent (server/agents/legal_extractor.py): the length guard and
    truncation shared with the action layer, one call to Gemini and one to Ollama
    with its own response parser, and a text-analysis fallback (the "mock"
    extraction) that always answers. The model replies are functions of the
    document text the prompt carries; the year and case-name regular expressions
    are parameters. */
module LegalExtractor {
  import opened Wrappers
  import opened Values
  import PyText
  import PerceptionLayer
  import Extraction

  const TooShortError := "Document text is too short or empty"
  const MockResponse := "Mock extraction performed for testing purposes"

  /** What one backend step returns: the decoded dict with its score and the raw
      reply, or the error the step reports. */
  datatype Step = StepOk(data: Value, confidence: real, raw: string) | StepError(error: string)

  /** What produced an extraction. */
  datatype Producer = ByGemini | ByOllama | ByMock

  /** The `model_used` tag of each producer. */
  function ModelUsed(p: Producer): string {
    match p
    case ByGemini => "gemini"
    case ByOllama => "ollama"
    case ByMock => "mock"
  }

  /** What `extract` returns: the data, its score when a model produced it, what
      produced it and the raw reply; or a failure. */
  datatype Result = Extracted(data: Value, confidence: Option<real>, producer: Producer, raw: string)
                  | ExtractFailed(error: string)

  // ---------------------------------------------------------------------------
  // Reading the model's answer.

  /** `re.sub(marker + '\n?', '', s)`: every occurrence of `marker`, scanning from
      the left and resuming after each one, is removed together with one newline
      right after it. */
  function RemoveMarker(s: string, marker: string): (r: string)
    requires marker != []
    ensures |r| <= |s|
    decreases |s|
  {
    if |s| < |marker| then s
    else if s[..|marker|] == marker then
      var rest := s[|marker|..];
      if rest != [] && rest[0] == '\n' then RemoveMarker(rest[1..], marker) else RemoveMarker(rest, marker)
    else [s[0]] + RemoveMarker(s[1..], marker)
  }

  /** Text that cannot start the marker passes through unchanged, and the removal
      carries on behind it. */
  lemma {:induction false} RemoveMarkerSkip(x: string, t: string, marker: string)
    requires marker != [] && marker[0] !in x
    ensures RemoveMarker(x + t, marker) == x + RemoveMarker(t, marker)
    decreases |x|
  {
    if x != [] {
      var s := x + t;
      assert s[1..] == x[1..] + t;
      RemoveMarkerSkip(x[1..], t, marker);
      if |s| < |marker| {
        assert |t| < |marker|;
        assert RemoveMarker(t, marker) == t;
      } else {
        assert x[0] in x;
        assert s[..|marker|][0] == x[0] != marker[0];
        assert RemoveMarker(s, marker) == [x[0]] + RemoveMarker(x[1..] + t, marker);
        assert x == [x[0]] + x[1..];
      }
    } else {
      assert x + t == t;
      assert x + RemoveMarker(t, marker) == RemoveMarker(t, marker);
    }
  }

  /** Removing the "```json" markers, then the "```" ones. */
  function CleanFences(s: string): (r: string)
    ensures |r| <= |s|
  {
    RemoveMarker(RemoveMarker(s, "```json"), "```")
  }

  /** A reply without backquotes is left as it is, and a block fenced as
      "```json", newline, body, "```" gives back its body. */
  lemma CleanFencesRecoversBody(body: string)
    requires '`' !in body
    ensures CleanFences(body) == body
    ensures CleanFences("```json\n" + body + "```") == body
  {
    RemoveMarkerSkip(body, [], "```json");
    RemoveMarkerSkip(body, [], "```");
    assert body + [] == body;
    var fenced := "```json\n" + body + "```";
    assert fenced[..7] == "```json";
    assert fenced[7..][1..] == body + "```";
    RemoveMarkerSkip(body, "```", "```json");
    RemoveMarkerSkip(body, "```", "```");
    assert ("```")[..3] == "```";
  }

  /** `_parse_extraction_response`: decode the `\{.*\}` span when there is one,
      else the whole text; if that decoding raises, decode the whole text with
      its code fences removed and blanks stripped, and give `None` when that
      raises too. */
  function ParseExtractionResponse(text: string, loads: string -> Option<Value>): (r: Option<Value>)
    ensures var first := if PerceptionLayer.BraceSpan(text).Some? then loads(PerceptionLayer.BraceSpan(text).value) else loads(text);
      (first.Some? ==> r == first)
      && (first.None? ==> r == loads(PyText.Strip(CleanFences(text))))
  {
    var first := match PerceptionLayer.BraceSpan(text)
      case Some(span) => loads(span)
      case None => loads(text);
    if first.Some? then first else loads(PyText.Strip(CleanFences(text)))
  }

  /** A reply with no braces that fails to decode as it is gets one more try: the
      body of its fenced block, stripped. */
  lemma ParseFencedReply(body: string, loads: string -> Option<Value>)
    requires '`' !in body && '{' !in body
    requires loads("```json\n" + body + "```").None?
    ensures ParseExtractionResponse("```json\n" + body + "```", loads) == loads(PyText.Strip(body))
  {
    var text := "```json\n" + body + "```";
    CleanFencesRecoversBody(body);
    assert PerceptionLayer.BraceSpan(text).None? by {
      assert text == "```json\n" + body + "```";
      assert forall i :: 0 <= i < |text| ==> text[i] != '{' by {
        forall i | 0 <= i < |text|
          ensures text[i] != '{'
        {
          if 8 <= i < 8 + |body| {
            assert text[i] == body[i - 8];
          }
        }
      }
      assert '{' !in text;
    }
  }

  // ---------------------------------------------------------------------------
  // One model call.

  /** `_calculate_confidence` as the step runs it: the score of a dict, or the
      error of the `except` handler when scoring raises (`.get` on a value that
      is not a dict, `len()` of truthy citations that have none). */
  function ScoreStep(v: Value, raw: string, prefix: string): (r: Step)
    ensures r.StepOk? <==> v.Dict? && Extraction.Confidence(v.entries).Some?
    ensures r.StepOk? ==> r.data == v && r.raw == raw && r.confidence == Extraction.Confidence(v.entries).value
    ensures r.StepOk? ==> 0.0 <= r.confidence <= 1.0
  {
    if !v.Dict? then StepError(prefix + "'" + TypeName(v) + "' object has no attribute 'get'")
    else match Extraction.Confidence(v.entries)
      case None => StepError(prefix + "object of type '" + TypeName(Find(v.entries, "citations").GetOr(Null)) + "' has no len()")
      case Some(c) => StepOk(v, c, raw)
  }

  /** `_extract_with_gemini` after the call: an exception, empty text, an answer
      that does not decode to a truthy value, or one that cannot be scored is an
      error. */
  function ExtractWithGemini(reply: PerceptionLayer.GeminiReply, loads: string -> Option<Value>): (r: Step)
    ensures r.StepOk? <==>
      reply.GeminiText? && reply.text != []
      && ParseExtractionResponse(reply.text, loads).Some?
      && Truthy(ParseExtractionResponse(reply.text, loads).value)
      && ScoreStep(ParseExtractionResponse(reply.text, loads).value, reply.text, "").StepOk?
    ensures r.StepOk? ==> r.data == ParseExtractionResponse(reply.text, loads).value && r.raw == reply.text
    ensures r.StepOk? ==> r.data.Dict? && 0.0 <= r.confidence <= 1.0
  {
    match reply
    case GeminiRaised(m) => StepError("Gemini extraction failed: " + m)
    case GeminiText(text) =>
      if text == [] then StepError("Empty response from Gemini")
      else
        match ParseExtractionResponse(text, loads)
        case None => StepError("Failed to parse Gemini response")
        case Some(v) =>
          if !Truthy(v) then StepError("Failed to parse Gemini response")
          else ScoreStep(v, text, "Gemini extraction failed: ")
  }

  /** `_extract_with_ollama` after the call: as for Gemini, and a status other than
      200 is an error naming the status. */
  function ExtractWithOllama(reply: PerceptionLayer.OllamaReply, loads: string -> Option<Value>): (r: Step)
    ensures r.StepOk? <==>
      reply.OllamaHttp? && reply.status == 200 && reply.text != []
      && ParseExtractionResponse(reply.text, loads).Some?
      && Truthy(ParseExtractionResponse(reply.text, loads).value)
      && ScoreStep(ParseExtractionResponse(reply.text, loads).value, reply.text, "").StepOk?
    ensures r.StepOk? ==> r.data == ParseExtractionResponse(reply.text, loads).value && r.raw == reply.text
    ensures r.StepOk? ==> r.data.Dict? && 0.0 <= r.confidence <= 1.0
    ensures reply.OllamaHttp? && reply.status != 200 ==>
      r == StepError("Ollama API error: " + PyText.IntToString(reply.status))
  {
    match reply
    case OllamaRaised(m) => StepError("Ollama extraction failed: " + m)
    case OllamaHttp(status, text) =>
      if status != 200 then StepError("Ollama API error: " + PyText.IntToString(status))
      else if text == [] then StepError("Empty response from Ollama")
      else
        match ParseExtractionResponse(text, loads)
        case None => StepError("Failed to parse Ollama response")
        case Some(v) =>
          if !Truthy(v) then StepError("Failed to parse Ollama response")
          else ScoreStep(v, text, "Ollama extraction failed: ")
  }

  // ---------------------------------------------------------------------------
  // The data-quality score.

  const QualityRequired: seq<string> := ["case_name", "court", "date", "facts", "legal_issues", "holdings"]
  const QualityOptional: seq<string> := ["reasoning", "citations"]

  /** A required field counts when it is truthy and not the string "Unknown". */
  predicate Useful(v: Value) {
    Truthy(v) && v != Str("Unknown")
  }

  /** How many of `fields` are present with a value `p` accepts. */
  function Counted(data: Entries, fields: seq<string>, p: Value -> bool): (n: nat)
    ensures n <= |fields|
    ensures n == |fields| <==> forall i :: 0 <= i < |fields| ==> Find(data, fields[i]).Some? && p(Find(data, fields[i]).value)
  {
    if fields == [] then 0
    else
      var rest := Counted(data, fields[1..], p);
      assert forall i :: 1 <= i < |fields| ==> fields[i] == fields[1..][i - 1];
      (if Find(data, fields[0]).Some? && p(Find(data, fields[0]).value) then 1 else 0) + rest
  }

  /** Counting over two lists of fields adds up. */
  lemma {:induction false} CountedAppend(data: Entries, a: seq<string>, b: seq<string>, p: Value -> bool)
    ensures Counted(data, a + b, p) == Counted(data, a, p) + Counted(data, b, p)
  {
    if a != [] {
      assert (a + b)[1..] == a[1..] + b;
      CountedAppend(data, a[1..], b, p);
    } else {
      assert a + b == b;
    }
  }

  /** `_calculate_data_quality`: one point per useful required field, half a point
      per truthy optional one, over eight, capped at 1.0. The cap never applies:
      the score is at most 7/8 (see `DataQualityFull`). */
  function DataQuality(data: Entries): (r: real)
    ensures 0.0 <= r <= 7.0 / 8.0
  {
    var required := Counted(data, QualityRequired, Useful);
    var optional := Counted(data, QualityOptional, Truthy);
    var score := required as real + 0.5 * optional as real;
    if score / 8.0 < 1.0 then score / 8.0 else 1.0
  }

  /** The score reaches its maximum 7/8 exactly when every required field is
      useful and every optional field truthy. */
  lemma DataQualityFull(data: Entries)
    ensures DataQuality(data) == 7.0 / 8.0 <==>
      (forall i :: 0 <= i < |QualityRequired| ==> Find(data, QualityRequired[i]).Some? && Useful(Find(data, QualityRequired[i]).value))
      && (forall i :: 0 <= i < |QualityOptional| ==> Find(data, QualityOptional[i]).Some? && Truthy(Find(data, QualityOptional[i]).value))
  {
    var required := Counted(data, QualityRequired, Useful);
    var optional := Counted(data, QualityOptional, Truthy);
    assert required <= 6 && optional <= 2;
    assert DataQuality(data) == (required as real + 0.5 * optional as real) / 8.0;
  }

  // ---------------------------------------------------------------------------
  // The text-analysis fallback.

  const CourtKeywords: seq<string> := ["SUPREME COURT", "COURT OF", "DISTRICT COURT", "CIRCUIT COURT"]
  const MockIssues: seq<string> := ["Constitutional interpretation", "Legal precedent application"]
  const MockHoldings: seq<string> := ["Court ruled in favor of plaintiff", "Previous precedent was overturned"]
  const MockReasoning: seq<string> := ["The court considered the constitutional implications",
    "Historical precedent was analyzed", "Public policy considerations were weighed"]
  const MaxMockCitations := 3

  /** A line among the first five that names the case: it holds "v." and is
      shorter than 100 characters. */
  predicate CaseLine(line: string) {
    PyText.Contains(line, "v.") && |line| < 100
  }

  /** A line among the first ten that names the court: its upper-cased text holds
      one of the court keywords. */
  predicate CourtLine(line: string) {
    exists i :: 0 <= i < |CourtKeywords| && PyText.Contains(PyText.Upper(line), CourtKeywords[i])
  }

  /** The first of `lines[:limit]` that `p` accepts. */
  function FirstMatch(lines: seq<string>, limit: nat, p: string -> bool): (r: Option<nat>)
    ensures r.Some? ==> r.value < limit && r.value < |lines| && p(lines[r.value])
    ensures r.Some? ==> forall j :: 0 <= j < r.value ==> !p(lines[j])
    ensures r.None? ==> forall j :: 0 <= j < limit && j < |lines| ==> !p(lines[j])
  {
    if lines == [] || limit == 0 then None
    else if p(lines[0]) then Some(0)
    else
      match FirstMatch(lines[1..], limit - 1, p)
      case None =>
        assert forall j :: 1 <= j < limit && j < |lines| ==> lines[j] == lines[1..][j - 1];
        None
      case Some(j) =>
        assert forall i :: 1 <= i <= j ==> lines[i] == lines[1..][i - 1];
        Some(j + 1)
  }

  /** The stripped first matching line, or `fallback`. */
  function Pick(lines: seq<string>, limit: nat, p: string -> bool, fallback: string): string {
    match FirstMatch(lines, limit, p)
    case Some(i) => PyText.Strip(lines[i])
    case None => fallback
  }

  /** The facts: the first paragraph, stripped, when it is longer than 50
      characters, cut to 200 characters and marked "..." when longer than that. */
  function MockFacts(text: string): (r: seq<string>)
    ensures var para := PyText.Strip(PyText.TextBefore(text, "\n\n"));
      (r != [] <==> |para| > 50)
      && |r| <= 1
      && (r != [] && |para| <= 200 ==> r[0] == para)
      && (r != [] && |para| > 200 ==> |r[0]| == 203 && r[0][..200] == para[..200])
  {
    var para := PyText.Strip(PyText.TextBefore(text, "\n\n"));
    if |para| > 50 then [if |para| > 200 then para[..200] + "..." else para] else []
  }

  /** "Affirmed" when the lower-cased text mentions "affirm", else "Reversed". */
  function Disposition(text: string): string {
    if PyText.Contains(PyText.Lower(text), "affirm") then "Affirmed" else "Reversed"
  }

  /** The first three case names the case-name expression finds. */
  function MockCitations(found: seq<string>): (r: seq<string>)
    ensures |r| <= MaxMockCitations && |r| <= |found|
    ensures r == found[..|r|]
    ensures |found| >= MaxMockCitations ==> |r| == MaxMockCitations
    ensures |found| < MaxMockCitations ==> r == found
  {
    if |found| <= MaxMockCitations then found else found[..MaxMockCitations]
  }

  /** What the text analysis finds. */
  datatype Findings = Findings(caseName: string, court: string, date: string, facts: seq<string>,
                               citations: seq<string>, disposition: string, words: nat)

  /** The analysis behind `_extract_mock_data`. `year` is the first year the year
      expression finds (a four-digit number, which Python writes as the match);
      `cases` are the matches of the case-name expression. */
  function Analyze(text: string, year: Option<nat>, cases: seq<string>): (f: Findings)
    ensures |f.citations| <= MaxMockCitations
    ensures f.words == PyText.WordCount(text)
  {
    var lines := PyText.SplitOn(text, '\n');
    Findings(Pick(lines, 5, CaseLine, "Unknown Case"),
             Pick(lines, 10, CourtLine, "Unknown Court"),
             match year case Some(y) => PyText.NatToString(y) case None => "Unknown Date",
             MockFacts(text), MockCitations(cases), Disposition(text), PyText.WordCount(text))
  }

  /** `_extract_mock_data`'s dict, with the fixed issues, holdings, reasoning,
      score 0.8 and method "mock". */
  function MockData(f: Findings): Entries {
    [("case_name", Str(f.caseName)),
     ("court", Str(f.court)),
     ("date", Str(f.date)),
     ("facts", StrList(f.facts)),
     ("legal_issues", StrList(MockIssues)),
     ("holdings", StrList(MockHoldings)),
     ("reasoning", StrList(MockReasoning)),
     ("citations", StrList(f.citations)),
     ("disposition", Str(f.disposition)),
     ("confidence_score", Real(0.8)),
     ("word_count", Int(f.words)),
     ("extraction_method", Str("mock"))]
  }

  // ---------------------------------------------------------------------------
  // Enhancing the data.

  /** The metadata `_enhance_extraction_data` adds, computed on the dict before it
      is added. */
  function Metadata(data: Entries, timestamp: real): Value {
    Dict([("extraction_timestamp", Real(timestamp)),
          ("data_quality_score", Real(DataQuality(data))),
          ("sections_extracted", StrList(Keys(data)))])
  }

  /** `_enhance_extraction_data`: store the metadata, then `_validate_extracted_data`
      coerces the list fields and the string fields, with "Unknown" for falsy
      strings. */
  function EnhanceData(data: Entries, show: Value -> string, timestamp: real): (r: Entries)
    ensures Keys(r) == Keys(Put(data, "metadata", Metadata(data, timestamp)))
  {
    Extraction.CoerceAll(Put(data, "metadata", Metadata(data, timestamp)),
      Extraction.AgentListFields, Extraction.AgentStringFields, "Unknown", show)
  }

  /** Enhancement stores the metadata computed on the dict as it came. */
  lemma EnhanceDataMetadata(data: Entries, show: Value -> string, timestamp: real)
    ensures Find(EnhanceData(data, show, timestamp), "metadata") == Some(Metadata(data, timestamp))
  {
    CoercionKeepsMetadata(data, Metadata(data, timestamp), show);
  }

  /** `metadata` is neither a list field nor a string field. */
  lemma CoercionKeepsMetadata(data: Entries, meta: Value, show: Value -> string)
    ensures Find(Extraction.CoerceAll(Put(data, "metadata", meta), Extraction.AgentListFields,
                                      Extraction.AgentStringFields, "Unknown", show), "metadata") == Some(meta)
  {
    assert "metadata" !in Extraction.AgentListFields && "metadata" !in Extraction.AgentStringFields;
    Extraction.CoerceAllFind(Put(data, "metadata", meta), Extraction.AgentListFields, Extraction.AgentStringFields, "Unknown", show, "metadata");
  }

  /** After enhancement every key but `metadata` is kept, a present list or string
      field holds a list or a string, and every other key keeps its value. */
  lemma EnhanceDataFind(data: Entries, show: Value -> string, timestamp: real, k: string)
    requires k != "metadata"
    ensures var r := Find(EnhanceData(data, show, timestamp), k);
      (r.Some? <==> HasKey(data, k))
      && (k in Extraction.AgentListFields && r.Some? ==> r.value == Extraction.CoerceList(Find(data, k).value, show))
      && (k in Extraction.AgentStringFields && r.Some? ==> r.value == Extraction.CoerceString(Find(data, k).value, show, "Unknown"))
      && (k !in Extraction.AgentListFields && k !in Extraction.AgentStringFields ==> r == Find(data, k))
  {
    var meta := Metadata(data, timestamp);
    var put := Put(data, "metadata", meta);
    FindPutOther(data, "metadata", meta, k);
    Extraction.AgentFieldsDisjoint(k);
    Extraction.CoerceAllFind(put, Extraction.AgentListFields, Extraction.AgentStringFields, "Unknown", show, k);
  }

  // ---------------------------------------------------------------------------
  // What the text analysis produces.

  /** A character that does not occur in "Unknown". */
  predicate NotInUnknown(c: char) {
    c != 'U' && c != 'n' && c != 'k' && c != 'o' && c != 'w'
  }

  /** A string holding a character that "Unknown" lacks is useful, since it is
      neither empty nor "Unknown". */
  lemma UsefulWith(s: string, j: int)
    requires 0 <= j < |s| && NotInUnknown(s[j])
    ensures Useful(Str(s))
  {
  }

  /** A stripped line holding a non-blank character that "Unknown" lacks is
      useful. */
  lemma StrippedUseful(line: string, j: int)
    requires 0 <= j < |line| && !PyText.IsSpace(line[j]) && NotInUnknown(line[j])
    ensures Useful(Str(PyText.Strip(line)))
  {
    PyText.StripKeeps(line, j);
    var r := PyText.Strip(line);
    var i :| 0 <= i < |r| && r[i] == line[j];
    UsefulWith(r, i);
  }

  /** The case name is the placeholder or a stripped line holding "v.": never empty
      and never "Unknown", so the quality score always counts it. */
  lemma CaseNameUseful(lines: seq<string>)
    ensures Useful(Str(Pick(lines, 5, CaseLine, "Unknown Case")))
  {
    match FirstMatch(lines, 5, CaseLine)
    case Some(i) =>
      var line := lines[i];
      var j :| 0 <= j <= |line| - 2 && PyText.OccursAt(line, "v.", j);
      assert line[j] == line[j..j + 2][0];
      StrippedUseful(line, j);
    case None =>
      assert "Unknown Case" != "Unknown";
  }

  /** Each court keyword starts with "S", "C" or "D". */
  lemma KeywordInitials(k: int)
    requires 0 <= k < |CourtKeywords|
    ensures CourtKeywords[k] != [] && CourtKeywords[k][0] in {'S', 'C', 'D'}
  {
    if k == 0 {
      assert CourtKeywords[0] == "SUPREME COURT";
    } else if k == 1 {
      assert CourtKeywords[1] == "COURT OF";
    } else if k == 2 {
      assert CourtKeywords[2] == "DISTRICT COURT";
    } else {
      assert CourtKeywords[3] == "CIRCUIT COURT";
    }
  }

  /** A keyword found in the upper-cased line starts at a letter "s", "c" or "d"
      of the line, in either case. */
  lemma KeywordStart(line: string, k: int, j: int)
    requires 0 <= k < |CourtKeywords|
    requires PyText.OccursAt(PyText.Upper(line), CourtKeywords[k], j)
    ensures 0 <= j < |line| && line[j] in {'s', 'S', 'c', 'C', 'd', 'D'}
  {
    var u := PyText.Upper(line);
    KeywordInitials(k);
    assert u[j] == u[j..j + |CourtKeywords[k]|][0] == CourtKeywords[k][0];
    assert PyText.UpperChar(line[j]) == u[j];
  }

  /** The court is the placeholder or a stripped line holding a court keyword:
      never empty and never "Unknown". */
  lemma CourtNameUseful(lines: seq<string>)
    ensures Useful(Str(Pick(lines, 10, CourtLine, "Unknown Court")))
  {
    match FirstMatch(lines, 10, CourtLine)
    case Some(i) =>
      var line := lines[i];
      var k :| 0 <= k < |CourtKeywords| && PyText.Contains(PyText.Upper(line), CourtKeywords[k]);
      var j :| 0 <= j <= |PyText.Upper(line)| - |CourtKeywords[k]| && PyText.OccursAt(PyText.Upper(line), CourtKeywords[k], j);
      KeywordStart(line, k, j);
      StrippedUseful(line, j);
    case None =>
      assert "Unknown Court" != "Unknown";
  }

  /** The date is a year written in digits or the placeholder. */
  lemma DateUseful(year: Option<nat>)
    ensures Useful(Str(match year case Some(y) => PyText.NatToString(y) case None => "Unknown Date"))
  {
    match year
    case Some(y) =>
      var d := PyText.NatToString(y);
      assert '0' <= d[0] <= '9';
      UsefulWith(d, 0);
    case None =>
      assert "Unknown Date" != "Unknown";
  }

  /** Every string the analysis reports for the case, the court and the date counts
      for the quality score. */
  lemma AnalyzeUseful(text: string, year: Option<nat>, cases: seq<string>)
    ensures var f := Analyze(text, year, cases);
      Useful(Str(f.caseName)) && Useful(Str(f.court)) && Useful(Str(f.date))
  {
    var lines := PyText.SplitOn(text, '\n');
    CaseNameUseful(lines);
    CourtNameUseful(lines);
    DateUseful(year);
  }

  /** The keys of the dict are distinct. */
  lemma MockKeysDistinct(f: Findings)
    ensures forall i, j :: 0 <= j < i < |MockData(f)| ==> MockData(f)[j].0 != MockData(f)[i].0
  {
  }

  /** Lookup in the dict finds each entry in place. */
  lemma MockLookup(f: Findings, i: nat)
    requires i < |MockData(f)|
    ensures Find(MockData(f), MockData(f)[i].0) == Some(MockData(f)[i].1)
  {
    MockKeysDistinct(f);
    FindAt(MockData(f), i);
  }

  /** The dict lists its keys in the order `_extract_mock_data` writes them and
      holds the findings under them. */
  lemma MockFields(f: Findings)
    ensures var d := MockData(f);
      Keys(d) == ["case_name", "court", "date", "facts", "legal_issues", "holdings", "reasoning",
                  "citations", "disposition", "confidence_score", "word_count", "extraction_method"]
      && Find(d, "facts") == Some(StrList(f.facts))
      && Find(d, "citations") == Some(StrList(f.citations))
      && Find(d, "disposition") == Some(Str(f.disposition))
      && Find(d, "word_count") == Some(Int(f.words))
  {
    var d := MockData(f);
    assert Keys(d) == ["case_name", "court", "date", "facts", "legal_issues", "holdings", "reasoning",
                       "citations", "disposition", "confidence_score", "word_count", "extraction_method"];
    MockLookup(f, 3);
    assert d[3].0 == "facts";
    MockLookup(f, 7);
    assert d[7].0 == "citations";
    MockLookup(f, 8);
    assert d[8].0 == "disposition";
    MockLookup(f, 10);
    assert d[10].0 == "word_count";
  }

  /** Counting over a single field. */
  lemma CountedOne(data: Entries, k: string, p: Value -> bool)
    ensures Counted(data, [k], p) == if Find(data, k).Some? && p(Find(data, k).value) then 1 else 0
  {
    assert [k][1..] == [];
  }

  /** Five useful required fields count five, and the facts one more when they
      are useful. */
  lemma RequiredCount(d: Entries)
    requires Find(d, "case_name").Some? && Useful(Find(d, "case_name").value)
    requires Find(d, "court").Some? && Useful(Find(d, "court").value)
    requires Find(d, "date").Some? && Useful(Find(d, "date").value)
    requires Find(d, "legal_issues").Some? && Useful(Find(d, "legal_issues").value)
    requires Find(d, "holdings").Some? && Useful(Find(d, "holdings").value)
    requires Find(d, "facts").Some?
    ensures Counted(d, QualityRequired, Useful) == 5 + (if Useful(Find(d, "facts").value) then 1 else 0)
  {
    assert QualityRequired == ["case_name"] + ["court"] + ["date"] + ["facts"] + ["legal_issues"] + ["holdings"];
    CountedAppend(d, ["case_name"] + ["court"] + ["date"] + ["facts"] + ["legal_issues"], ["holdings"], Useful);
    CountedAppend(d, ["case_name"] + ["court"] + ["date"] + ["facts"], ["legal_issues"], Useful);
    CountedAppend(d, ["case_name"] + ["court"] + ["date"], ["facts"], Useful);
    CountedAppend(d, ["case_name"] + ["court"], ["date"], Useful);
    CountedAppend(d, ["case_name"], ["court"], Useful);
    CountedOne(d, "case_name", Useful);
    CountedOne(d, "court", Useful);
    CountedOne(d, "date", Useful);
    CountedOne(d, "facts", Useful);
    CountedOne(d, "legal_issues", Useful);
    CountedOne(d, "holdings", Useful);
  }

  /** Truthy reasoning counts one, and the citations one more when they are
      truthy. */
  lemma OptionalCount(d: Entries)
    requires Find(d, "reasoning").Some? && Truthy(Find(d, "reasoning").value)
    requires Find(d, "citations").Some?
    ensures Counted(d, QualityOptional, Truthy) == 1 + (if Truthy(Find(d, "citations").value) then 1 else 0)
  {
    assert QualityOptional == ["reasoning"] + ["citations"];
    CountedAppend(d, ["reasoning"], ["citations"], Truthy);
    CountedOne(d, "reasoning", Truthy);
    CountedOne(d, "citations", Truthy);
  }

  /** Lookups in the mock dict, a few keys at a time. */
  lemma MockHeadFinds(f: Findings)
    ensures var d := MockData(f);
      Find(d, "case_name") == Some(Str(f.caseName))
      && Find(d, "court") == Some(Str(f.court))
      && Find(d, "date") == Some(Str(f.date))
  {
    var d := MockData(f);
    MockLookup(f, 0);
    assert d[0].0 == "case_name";
    MockLookup(f, 1);
    assert d[1].0 == "court";
    MockLookup(f, 2);
    assert d[2].0 == "date";
  }

  lemma MockBodyFinds(f: Findings)
    ensures var d := MockData(f);
      Find(d, "facts") == Some(StrList(f.facts))
      && Find(d, "legal_issues") == Some(StrList(MockIssues))
      && Find(d, "holdings") == Some(StrList(MockHoldings))
  {
    var d := MockData(f);
    MockLookup(f, 3);
    assert d[3].0 == "facts";
    MockLookup(f, 4);
    assert d[4].0 == "legal_issues";
    MockLookup(f, 5);
    assert d[5].0 == "holdings";
  }

  lemma MockTailFinds(f: Findings)
    ensures var d := MockData(f);
      Find(d, "reasoning") == Some(StrList(MockReasoning))
      && Find(d, "citations") == Some(StrList(f.citations))
  {
    var d := MockData(f);
    MockLookup(f, 6);
    assert d[6].0 == "reasoning";
    MockLookup(f, 7);
    assert d[7].0 == "citations";
  }

  /** A list counts exactly when it is non-empty. */
  lemma StrListUseful(ss: seq<string>)
    ensures Useful(StrList(ss)) <==> ss != []
    ensures Truthy(StrList(ss)) <==> ss != []
  {
  }

  /** The score from the two counts, below the cap. */
  lemma QualityFromCounts(d: Entries, required: nat, optional: nat)
    requires Counted(d, QualityRequired, Useful) == required
    requires Counted(d, QualityOptional, Truthy) == optional
    ensures DataQuality(d) == (required as real + 0.5 * optional as real) / 8.0
  {
  }

  /** The quality of any dict holding the findings under the agent's field names. */
  lemma QualityOfFinds(d: Entries, f: Findings)
    requires Find(d, "case_name") == Some(Str(f.caseName)) && Useful(Str(f.caseName))
    requires Find(d, "court") == Some(Str(f.court)) && Useful(Str(f.court))
    requires Find(d, "date") == Some(Str(f.date)) && Useful(Str(f.date))
    requires Find(d, "facts") == Some(StrList(f.facts))
    requires Find(d, "legal_issues") == Some(StrList(MockIssues))
    requires Find(d, "holdings") == Some(StrList(MockHoldings))
    requires Find(d, "reasoning") == Some(StrList(MockReasoning))
    requires Find(d, "citations") == Some(StrList(f.citations))
    ensures DataQuality(d) ==
      (5.5 + (if f.facts != [] then 1.0 else 0.0) + (if f.citations != [] then 0.5 else 0.0)) / 8.0
  {
    var facts := if f.facts != [] then 1 else 0;
    var citations := if f.citations != [] then 1 else 0;
    StrListUseful(MockIssues);
    StrListUseful(MockHoldings);
    StrListUseful(MockReasoning);
    StrListUseful(f.facts);
    StrListUseful(f.citations);
    RequiredCount(d);
    OptionalCount(d);
    QualityFromCounts(d, 5 + facts, 1 + citations);
  }

  /** The quality of the mock dict of findings whose case name, court and date count. */
  lemma QualityOf(f: Findings)
    requires Useful(Str(f.caseName)) && Useful(Str(f.court)) && Useful(Str(f.date))
    ensures DataQuality(MockData(f)) ==
      (5.5 + (if f.facts != [] then 1.0 else 0.0) + (if f.citations != [] then 0.5 else 0.0)) / 8.0
  {
    MockHeadFinds(f);
    MockBodyFinds(f);
    MockTailFinds(f);
    QualityOfFinds(MockData(f), f);
  }

  /** The quality of the analysis: five points for the fields it always fills
      (the placeholders "Unknown Case", "Unknown Court" and "Unknown Date" count,
      since only "Unknown" itself is excluded), one for facts, half a point for the
      reasoning and half a point for citations, over eight. */
  lemma MockQuality(text: string, year: Option<nat>, cases: seq<string>)
    ensures DataQuality(MockData(Analyze(text, year, cases))) ==
      (5.5 + (if MockFacts(text) != [] then 1.0 else 0.0) + (if cases != [] then 0.5 else 0.0)) / 8.0
  {
    var f := Analyze(text, year, cases);
    AnalyzeUseful(text, year, cases);
    QualityOf(f);
  }

  /** Storing the metadata keeps every other field settled. */
  lemma SettledPut(d: Entries, m: Value, fields: seq<string>, c: Extraction.Coercion, show: Value -> string)
    requires "metadata" !in fields
    requires forall k :: k in fields ==> Extraction.Settled(d, k, c, show)
    ensures forall k :: k in fields ==> Extraction.Settled(Put(d, "metadata", m), k, c, show)
  {
    forall k | k in fields
      ensures Extraction.Settled(Put(d, "metadata", m), k, c, show)
    {
      FindPutOther(d, "metadata", m, k);
    }
  }

  /** When the dict has no "metadata" key and its list and string fields already
      hold lists and strings, storing a metadata value and coercing only appends
      that value. */
  lemma SettledAppend(d: Entries, m: Value, lists: seq<string>, strings: seq<string>, fallback: string,
                      show: Value -> string)
    requires !HasKey(d, "metadata") && "metadata" !in lists && "metadata" !in strings
    requires forall k :: k in lists ==> Extraction.Settled(d, k, Extraction.ToList, show)
    requires forall k :: k in strings ==> Extraction.Settled(d, k, Extraction.ToString(fallback), show)
    ensures Extraction.CoerceAll(Put(d, "metadata", m), lists, strings, fallback, show) == d + [("metadata", m)]
  {
    var put := Put(d, "metadata", m);
    PutAbsent(d, "metadata", m);
    SettledPut(d, m, lists, Extraction.ToList, show);
    Extraction.CoerceFieldsNoop(put, lists, Extraction.ToList, show);
    SettledPut(d, m, strings, Extraction.ToString(fallback), show);
    Extraction.CoerceFieldsNoop(put, strings, Extraction.ToString(fallback), show);
  }

  /** A dict holding the findings' strings and lists under the agent's field
      names has its fields settled. */
  lemma FindingsSettled(d: Entries, f: Findings, show: Value -> string)
    requires Find(d, "case_name") == Some(Str(f.caseName))
    requires Find(d, "court") == Some(Str(f.court))
    requires Find(d, "date") == Some(Str(f.date))
    requires Find(d, "disposition") == Some(Str(f.disposition))
    requires Find(d, "facts") == Some(StrList(f.facts))
    requires Find(d, "legal_issues") == Some(StrList(MockIssues))
    requires Find(d, "holdings") == Some(StrList(MockHoldings))
    requires Find(d, "reasoning") == Some(StrList(MockReasoning))
    requires Find(d, "citations") == Some(StrList(f.citations))
    ensures forall k :: k in Extraction.AgentListFields ==> Extraction.Settled(d, k, Extraction.ToList, show)
    ensures forall k :: k in Extraction.AgentStringFields ==> Extraction.Settled(d, k, Extraction.ToString("Unknown"), show)
  {
  }

  /** No field the agent coerces is called "metadata": none starts with 'm'. */
  lemma MetadataNotCoerced()
    ensures "metadata" !in Extraction.AgentListFields && "metadata" !in Extraction.AgentStringFields
  {
    forall k | k in Extraction.AgentListFields + Extraction.AgentStringFields
      ensures k != "metadata"
    {
      assert k[0] != 'm';
    }
  }

  /** A dict holding the findings' strings and lists under the agent's field
      names, and no "metadata" key, only gains the metadata. */
  lemma EnhanceFindings(d: Entries, f: Findings, show: Value -> string, timestamp: real)
    requires !HasKey(d, "metadata")
    requires Find(d, "case_name") == Some(Str(f.caseName))
    requires Find(d, "court") == Some(Str(f.court))
    requires Find(d, "date") == Some(Str(f.date))
    requires Find(d, "disposition") == Some(Str(f.disposition))
    requires Find(d, "facts") == Some(StrList(f.facts))
    requires Find(d, "legal_issues") == Some(StrList(MockIssues))
    requires Find(d, "holdings") == Some(StrList(MockHoldings))
    requires Find(d, "reasoning") == Some(StrList(MockReasoning))
    requires Find(d, "citations") == Some(StrList(f.citations))
    ensures EnhanceData(d, show, timestamp) == d + [("metadata", Metadata(d, timestamp))]
  {
    FindingsSettled(d, f, show);
    MetadataNotCoerced();
    SettledAppend(d, Metadata(d, timestamp), Extraction.AgentListFields, Extraction.AgentStringFields, "Unknown", show);
  }

  /** The mock dict has no "metadata" key. */
  lemma MockHasNoMetadata(f: Findings)
    ensures !HasKey(MockData(f), "metadata")
  {
    var d := MockData(f);
    forall i | 0 <= i < |d|
      ensures d[i].0 != "metadata"
    {
      assert |d[i].0| != |"metadata"| || d[i].0[0] != 'm';
    }
    AbsentKey(d, "metadata");
  }

  /** Every list field of the mock dict holds a list and every string field a
      string, so the coercion in `_validate_extracted_data` changes nothing and
      enhancement only appends the metadata. */
  lemma MockEnhanceAddsMetadata(f: Findings, show: Value -> string, timestamp: real)
    ensures var d := MockData(f);
      EnhanceData(d, show, timestamp) == d + [("metadata", Metadata(d, timestamp))]
  {
    MockHeadFinds(f);
    MockBodyFinds(f);
    MockTailFinds(f);
    MockFields(f);
    MockHasNoMetadata(f);
    EnhanceFindings(MockData(f), f, show, timestamp);
  }

  // ---------------------------------------------------------------------------
  // The ladder.

  /** The two model rungs on the truncated text: Gemini when it is the primary
      model and set up, then Ollama when it is the fallback model and available;
      `None` when neither was tried or neither step succeeded. */
  function ModelRungs(cfg: PerceptionLayer.ModelConfig, live: PerceptionLayer.Liveness,
                      gemini: PerceptionLayer.GeminiReply, ollama: PerceptionLayer.OllamaReply,
                      loads: string -> Option<Value>): (r: Option<Result>)
    ensures var geminiOk := cfg.primaryModel == "gemini" && live.geminiModel && ExtractWithGemini(gemini, loads).StepOk?;
      var ollamaOk := cfg.fallbackModel == "ollama" && live.ollamaAvailable && ExtractWithOllama(ollama, loads).StepOk?;
      (r.None? <==> !geminiOk && !ollamaOk)
      && (geminiOk ==> r == Some(Extracted(ExtractWithGemini(gemini, loads).data, Some(ExtractWithGemini(gemini, loads).confidence), ByGemini, ExtractWithGemini(gemini, loads).raw)))
      && (!geminiOk && ollamaOk ==> r == Some(Extracted(ExtractWithOllama(ollama, loads).data, Some(ExtractWithOllama(ollama, loads).confidence), ByOllama, ExtractWithOllama(ollama, loads).raw)))
    ensures r.Some? ==>
      r.value.Extracted? && r.value.data.Dict? && r.value.producer != ByMock
      && r.value.confidence.Some? && 0.0 <= r.value.confidence.value <= 1.0
  {
    var first := if cfg.primaryModel == "gemini" && live.geminiModel then ExtractWithGemini(gemini, loads) else StepError("");
    if first.StepOk? then Some(Extracted(first.data, Some(first.confidence), ByGemini, first.raw))
    else
      var second := if cfg.fallbackModel == "ollama" && live.ollamaAvailable then ExtractWithOllama(ollama, loads) else StepError("");
      if second.StepOk? then Some(Extracted(second.data, Some(second.confidence), ByOllama, second.raw))
      else None
  }

  /** The last rung: the text analysis of the truncated text, enhanced, with no
      confidence. */
  function MockAnswer(text: string, yearSearch: string -> Option<nat>, findCases: string -> seq<string>,
                      show: Value -> string, timestamp: real): (r: Result)
    ensures r.Extracted? && r.data.Dict? && r.confidence.None? && r.producer == ByMock
    ensures r.data.entries == EnhanceData(MockData(Analyze(text, yearSearch(text), findCases(text))), show, timestamp)
  {
    Extracted(Dict(EnhanceData(MockData(Analyze(text, yearSearch(text), findCases(text))), show, timestamp)), None, ByMock, MockResponse)
  }

  /** `extract(document_text)` given the model configuration, which backends were
      set up, each backend's reply to the (truncated) document, the decoder, the
      two regular expressions, `str()` and the clock. Past the guard it always
      answers: the text analysis is the last rung. */
  function Extract(document: string, cfg: PerceptionLayer.ModelConfig, live: PerceptionLayer.Liveness,
                   gemini: string -> PerceptionLayer.GeminiReply, ollama: string -> PerceptionLayer.OllamaReply,
                   loads: string -> Option<Value>, yearSearch: string -> Option<nat>, findCases: string -> seq<string>,
                   show: Value -> string, timestamp: real): (r: Result)
    ensures r.ExtractFailed? <==> Extraction.TooShort(document)
    ensures r.ExtractFailed? ==> r.error == TooShortError
    ensures r.Extracted? ==> r.data.Dict? && (r.confidence.Some? <==> r.producer != ByMock)
    ensures r.Extracted? && r.confidence.Some? ==> 0.0 <= r.confidence.value <= 1.0
    ensures r.Extracted? ==>
      var text := Extraction.Truncate(document);
      (r.producer != ByMock <==> ModelRungs(cfg, live, gemini(text), ollama(text), loads).Some?)
      && (r.producer == ByMock ==> r == MockAnswer(text, yearSearch, findCases, show, timestamp))
  {
    if Extraction.TooShort(document) then ExtractFailed(TooShortError)
    else
      var text := Extraction.Truncate(document);
      match ModelRungs(cfg, live, gemini(text), ollama(text), loads)
      case Some(answer) => answer
      case None => MockAnswer(text, yearSearch, findCases, show, timestamp)
  }

  /** The agent reads only the first 50000 characters of a long document: two
      documents that pass the guard and agree there are extracted alike. */
  lemma ExtractSeesOnlyPrefix(a: string, b: string, cfg: PerceptionLayer.ModelConfig, live: PerceptionLayer.Liveness,
                              gemini: string -> PerceptionLayer.GeminiReply, ollama: string -> PerceptionLayer.OllamaReply,
                              loads: string -> Option<Value>, yearSearch: string -> Option<nat>, findCases: string -> seq<string>,
                              show: Value -> string, timestamp: real)
    requires !Extraction.TooShort(a) && !Extraction.TooShort(b)
    requires |a| > Extraction.MaxDocumentLength && |b| > Extraction.MaxDocumentLength
    requires a[..Extraction.MaxDocumentLength] == b[..Extraction.MaxDocumentLength]
    ensures Extract(a, cfg, live, gemini, ollama, loads, yearSearch, findCases, show, timestamp)
         == Extract(b, cfg, live, gemini, ollama, loads, yearSearch, findCases, show, timestamp)
  {
    assert Extraction.Truncate(a) == Extraction.Truncate(b);
  }
}
