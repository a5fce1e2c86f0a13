/** The server's own logic (server/main.py): the upload file check, the
    verbosity-to-detail-level map and the input guards each route applies before
    it calls a layer. A route body either goes on with what it read, answers at
    once with a status and a JSON body, or raises, which its outer `except`
    turns into a 500 answer; the exception text is not modelled. Decoded JSON
    request bodies are values; Flask itself is not modelled. */
module ServerMain {
  import opened Wrappers
  import opened Values
  import PyText
  import MemoryLayer
  import ResponseFormatter

  /** Where a route body stands after its guards. */
  datatype Step<T> = Proceed(value: T) | Respond(status: nat, body: Value) | Crash

  function ErrorBody(message: string): Value {
    Dict([("error", Str(message))])
  }

  const InvalidTypeError := "Invalid file type. Only PDF and TXT files are allowed."
  const FileFailedError := "File processing failed: "
  const NoInputError := "No file or text provided"
  const TooShortError := "Document content is too short or empty (minimum 100 characters)"
  const NoJsonError := "No JSON data provided"
  const NoExtractedError := "No extracted data provided"
  const NoDataError := "No data provided"
  const NoCategoryError := "Category is required"
  const NoRequestError := "User request is required"

  /** The least number of characters, once stripped, a document must have. */
  const MinDocumentLength := 100

  // ---------------------------------------------------------------------------
  // Uploaded files.

  /** `ALLOWED_EXTENSIONS`, the same set the lookup falls back to. */
  const AllowedExtensions: set<string> := {"pdf", "txt"}

  /** `filename.rsplit('.', 1)[1]`: the text after the last '.', when there is one. */
  function Extension(name: string): (r: Option<string>)
    ensures r.None? <==> '.' !in name
    ensures r.Some? ==> (|r.value| < |name| && name[|name| - |r.value| - 1] == '.'
      && name[|name| - |r.value|..] == r.value && '.' !in r.value)
  {
    match PyText.LastIndex(name, '.')
    case None => None
    case Some(i) => Some(name[i + 1..])
  }

  /** `is_valid_file(filename)`: a missing or empty name, or one without a '.', is
      refused; otherwise the extension, lower-cased, must be allowed. */
  function IsValidFile(filename: Option<string>): (ok: bool)
    ensures ok ==> filename.Some? && '.' in filename.value
    ensures filename.None? || filename.value == [] ==> !ok
  {
    match filename
    case None => false
    case Some(name) =>
      if name == [] then false
      else
        match Extension(name)
        case None => false
        case Some(ext) => PyText.Lower(ext) in AllowedExtensions
  }

  /** A name is its stem, a '.', and a dot-free extension: it is valid exactly when
      that extension, lower-cased, is allowed; the stem plays no part. */
  lemma ValidFileIffExtension(stem: string, ext: string)
    requires '.' !in ext
    ensures IsValidFile(Some(stem + "." + ext)) <==> PyText.Lower(ext) in AllowedExtensions
  {
    var name := stem + "." + ext;
    ExtensionOfSplit(stem, ext);
  }

  lemma ExtensionOfSplit(stem: string, ext: string)
    requires '.' !in ext
    ensures Extension(stem + "." + ext) == Some(ext)
  {
    var name := stem + "." + ext;
    assert name[|stem|] == '.';
    var r := Extension(name);
    assert r.Some?;
    var e := r.value;
    assert e == name[|stem| + 1..] == ext;
  }

  predicate EndsWith(s: string, suffix: string) {
    |suffix| <= |s| && s[|s| - |suffix|..] == suffix
  }

  /** The upload is read as plain text when `filename.lower().endswith('.txt')`,
      and handed to the PDF extractor otherwise. */
  predicate ReadsAsText(name: string) {
    EndsWith(PyText.Lower(name), ".txt")
  }

  /** The reading branch agrees with the validation: a name is read as text
      exactly when its extension lower-cases to `txt`. */
  lemma ReadsAsTextIffTxt(stem: string, ext: string)
    requires '.' !in ext
    ensures ReadsAsText(stem + "." + ext) <==> PyText.Lower(ext) == "txt"
  {
    if PyText.Lower(ext) == "txt" {
      TxtSuffix(stem, ext);
    }
    if ReadsAsText(stem + "." + ext) {
      TxtSuffixBack(stem, ext);
    }
  }

  lemma TxtSuffix(stem: string, ext: string)
    requires PyText.Lower(ext) == "txt"
    ensures ReadsAsText(stem + "." + ext)
  {
    var name := stem + "." + ext;
    var low := PyText.Lower(name);
    assert |ext| == 3;
    var tail := low[|low| - 4..];
    assert tail[0] == PyText.LowerChar(name[|stem|]) == '.';
    forall k | 1 <= k < 4 ensures tail[k] == ".txt"[k] {
      assert tail[k] == PyText.LowerChar(name[|stem| + k]);
      assert name[|stem| + k] == ext[k - 1];
      assert PyText.Lower(ext)[k - 1] == PyText.LowerChar(ext[k - 1]);
    }
  }

  lemma TxtSuffixBack(stem: string, ext: string)
    requires '.' !in ext
    requires ReadsAsText(stem + "." + ext)
    ensures PyText.Lower(ext) == "txt"
  {
    var name := stem + "." + ext;
    var low := PyText.Lower(name);
    var p := |name| - 4;
    assert low[p] == '.';
    assert name[p] == '.';
    assert low[|stem|] == '.';
    if p != |stem| {
      assert false;
    }
    assert |ext| == 3;
    forall k | 0 <= k < 3 ensures PyText.Lower(ext)[k] == "txt"[k] {
      assert low[|stem| + 1 + k] == ".txt"[k + 1];
      assert name[|stem| + 1 + k] == ext[k];
    }
  }

  // ---------------------------------------------------------------------------
  // Detail level.

  /** `detail_level_map` */
  const DetailLevels: map<string, string> := map["minimal" := "summary", "standard" := "summary", "detailed" := "detailed"]

  /** `detail_level_map.get(level, 'summary')`: looking up a list or a dict raises. */
  function DetailLevel(level: Value): (r: Option<string>)
    ensures r.None? <==> Unhashable(level)
    ensures r.Some? ==> r.value == "summary" || r.value == "detailed"
    ensures r == Some("detailed") <==> level == Str("detailed")
  {
    if Unhashable(level) then None
    else if level.Str? && level.s in DetailLevels then Some(DetailLevels[level.s])
    else Some("summary")
  }

  /** The detail level a route derives from the preferences: the `general`
      category's `verbosity_level` (default `standard`), mapped; a `general`
      category that is not a dict raises. */
  function DetailLevelOf(preferences: Entries): (r: Option<string>)
    ensures r.Some? ==> r.value == "summary" || r.value == "detailed"
  {
    var general := Find(preferences, "general").GetOr(Dict([]));
    var level :- Get(general, "verbosity_level", Str("standard"));
    DetailLevel(level)
  }

  /** The level is `detailed` (the layers' `detailed` flag) exactly when the stored
      verbosity is `detailed`; with no `general` category, or no verbosity in it,
      it is `summary`. */
  lemma DetailedIff(preferences: Entries)
    requires Find(preferences, "general").None? || Find(preferences, "general").value.Dict?
    ensures var general := Find(preferences, "general").GetOr(Dict([]));
      DetailLevelOf(preferences) == Some("detailed") <==>
        Find(general.entries, "verbosity_level") == Some(Str("detailed"))
    ensures var general := Find(preferences, "general").GetOr(Dict([]));
      !HasKey(general.entries, "verbosity_level") ==> DetailLevelOf(preferences) == Some("summary")
  {
  }

  /** With the default preferences every route works at the `summary` level. */
  lemma DefaultDetailLevel()
    ensures DetailLevelOf(MemoryLayer.DefaultPreferences) == Some("summary")
  {
    var prefs := MemoryLayer.DefaultPreferences;
    FindAt(prefs, 0);
    var general := prefs[0].1.entries;
    assert general[0].0[0] == 'o' && general[1].0[0] == 'l' && general[2].0[0] == 'v';
    FindAt(general, 2);
  }

  // ---------------------------------------------------------------------------
  // Document analysis.

  /** Where the document comes from: an uploaded file (its name, and its text when
      reading it worked), a JSON body, a form field, or nothing. */
  datatype Submission =
    | Upload(filename: string, contents: Option<string>)
    | JsonBody(body: Value)
    | FormText(text: string)
    | NoInput

  /** The text the analysis route reads: an upload with no name leaves it empty,
      an upload with a bad name or an unreadable file is refused, a JSON body is
      asked for its `text` (default empty), and no input at all is refused. */
  function DocumentText(input: Submission): (r: Step<Value>)
    ensures input.NoInput? ==> r == Respond(400, ErrorBody(NoInputError))
    ensures input.Upload? && input.filename != [] && !IsValidFile(Some(input.filename)) ==>
      r == Respond(400, ErrorBody(InvalidTypeError))
    ensures input.Upload? && input.filename == [] ==> r == Proceed(Str(""))
    ensures input.JsonBody? ==> (r.Crash? <==> !input.body.Dict?)
  {
    match input
    case Upload(name, contents) =>
      if name == [] then Proceed(Str(""))
      else if !IsValidFile(Some(name)) then Respond(400, ErrorBody(InvalidTypeError))
      else if contents.None? then Respond(400, ErrorBody(FileFailedError))
      else Proceed(Str(contents.value))
    case JsonBody(body) =>
      (match Get(body, "text", Str(""))
       case None => Crash
       case Some(text) => Proceed(text))
    case FormText(text) => Proceed(Str(text))
    case NoInput => Respond(400, ErrorBody(NoInputError))
  }

  /** `if not text_content or len(text_content.strip()) < 100`: empty or short text
      is refused; text that is not a string has no `strip` and raises. */
  function TextGuard(text: Value): (r: Step<string>)
    ensures r.Proceed? <==> text.Str? && |PyText.Strip(text.s)| >= MinDocumentLength
    ensures r.Proceed? ==> r.value == text.s
    ensures r.Crash? <==> Truthy(text) && !text.Str?
    ensures r.Respond? ==> r == Respond(400, ErrorBody(TooShortError))
  {
    if !Truthy(text) then Respond(400, ErrorBody(TooShortError))
    else if !text.Str? then Crash
    else if |PyText.Strip(text.s)| < MinDocumentLength then Respond(400, ErrorBody(TooShortError))
    else Proceed(text.s)
  }

  /** The guards of `/api/analyze-document`, in order. */
  function AnalyzeGuard(input: Submission): (r: Step<string>)
    ensures r.Proceed? ==> |PyText.Strip(r.value)| >= MinDocumentLength
    ensures input.NoInput? ==> r == Respond(400, ErrorBody(NoInputError))
    ensures input.Upload? && input.filename == [] ==> r == Respond(400, ErrorBody(TooShortError))
  {
    match DocumentText(input)
    case Proceed(text) => TextGuard(text)
    case Respond(status, body) => Respond(status, body)
    case Crash => Crash
  }

  /** Two non-blank characters at least 99 positions apart. */
  predicate LongSpan(s: string) {
    exists i, j :: 0 <= i < j < |s| && j - i >= MinDocumentLength - 1 && !PyText.IsSpace(s[i]) && !PyText.IsSpace(s[j])
  }

  /** The length check, stated without `strip`: a text passes exactly when some two
      non-blank characters lie at least 99 positions apart. */
  lemma TextGuardSpan(s: string)
    ensures TextGuard(Str(s)).Proceed? <==> LongSpan(s)
  {
    if TextGuard(Str(s)).Proceed? {
      StripSpan(s);
    }
    if LongSpan(s) {
      var i, j :| 0 <= i < j < |s| && j - i >= MinDocumentLength - 1 && !PyText.IsSpace(s[i]) && !PyText.IsSpace(s[j]);
      SpanInStrip(s, i, j);
    }
  }

  lemma StripSpan(s: string)
    requires |PyText.Strip(s)| >= MinDocumentLength
    ensures LongSpan(s)
  {
    var r := PyText.Strip(s);
    var start := |s| - |PyText.TrimLeft(s)|;
    var i, j := start, start + |r| - 1;
    assert s[i] == r[0] && s[j] == r[|r| - 1];
  }

  /** Every non-blank character lies within the stripped text. */
  lemma SpanInStrip(s: string, i: nat, j: nat)
    requires i <= j < |s| && !PyText.IsSpace(s[i]) && !PyText.IsSpace(s[j])
    ensures |PyText.Strip(s)| >= j - i + 1
  {
    var r := PyText.Strip(s);
    var start := |s| - |PyText.TrimLeft(s)|;
  }

  // ---------------------------------------------------------------------------
  // Brief generation.

  /** The guards of `/api/generate-brief`: a missing or empty body, then missing or
      empty `extracted_data`, are refused; a body that is not a dict raises. */
  function BriefGuard(data: Value): (r: Step<Value>)
    ensures r.Proceed? <==> data.Dict? && Truthy(Find(data.entries, "extracted_data").GetOr(Null))
    ensures r.Proceed? ==> Find(data.entries, "extracted_data") == Some(r.value)
    ensures !Truthy(data) ==> r == Respond(400, ErrorBody(NoJsonError))
    ensures r.Crash? <==> Truthy(data) && !data.Dict?
  {
    if !Truthy(data) then Respond(400, ErrorBody(NoJsonError))
    else
      match Get(data, "extracted_data", Null)
      case None => Crash
      case Some(extracted) =>
        if !Truthy(extracted) then Respond(400, ErrorBody(NoExtractedError)) else Proceed(extracted)
  }

  /** What the brief route does about citations once the brief is generated. */
  datatype CitationPlan = RunNormalizer(citations: Value) | UseEmpty

  /** The citation result used when normalization does not run. */
  const EmptyCitationResult: Value :=
    Dict([("success", Bool(true)),
          ("data", Dict([("normalized_citations", List([])), ("format", Str("bluebook")), ("total_processed", Int(0))]))])

  /** The citation gate: the extracted data's `citations` (none when it is not a
      dict) are normalized when there are some and the `citation` preferences'
      `normalize_citations` (default true) is truthy; a `citation` category that is
      not a dict raises, but only once there are citations to look at. */
  function CitationGate(extracted: Value, preferences: Entries): (r: Option<CitationPlan>)
    ensures var citations := if extracted.Dict? then Find(extracted.entries, "citations").GetOr(List([])) else List([]);
      && (!Truthy(citations) ==> r == Some(UseEmpty))
      && (r == Some(RunNormalizer(citations)) <==>
            Truthy(citations) && Get(Find(preferences, "citation").GetOr(Dict([])), "normalize_citations", Bool(true)).Some?
            && Truthy(Get(Find(preferences, "citation").GetOr(Dict([])), "normalize_citations", Bool(true)).value))
    ensures r.None? ==> !Find(preferences, "citation").GetOr(Dict([])).Dict?
  {
    var citations := if extracted.Dict? then Find(extracted.entries, "citations").GetOr(List([])) else List([]);
    if !Truthy(citations) then Some(UseEmpty)
    else
      var enabled :- Get(Find(preferences, "citation").GetOr(Dict([])), "normalize_citations", Bool(true));
      Some(if Truthy(enabled) then RunNormalizer(citations) else UseEmpty)
  }

  /** With the default preferences, normalization runs exactly when the extracted
      data has citations. */
  lemma DefaultPreferencesNormalize(extracted: Value)
    ensures var citations := if extracted.Dict? then Find(extracted.entries, "citations").GetOr(List([])) else List([]);
      CitationGate(extracted, MemoryLayer.DefaultPreferences) == Some(if Truthy(citations) then RunNormalizer(citations) else UseEmpty)
  {
    var prefs := MemoryLayer.DefaultPreferences;
    assert prefs[0].0[0] == 'g' && prefs[1].0[0] == 'l' && prefs[2].0[0] == 'c';
    FindAt(prefs, 2);
    var citation := prefs[2].1.entries;
    assert citation[0].0[0] == 'f' && citation[1].0[0] == 'i' && citation[2].0[0] == 'n';
    FindAt(citation, 2);
  }

  /** When normalization does not run, the brief response lists no citations,
      counts none, and names the bluebook format. */
  lemma EmptyCitationResponse(brief: Entries, timestamp: string)
    ensures var r := ResponseFormatter.FormatBriefResponse(brief, EmptyCitationResult, timestamp);
      && r.Some? && r.value.totalCitations == 0 && r.value.citationFormat == Str("bluebook")
      && r.value.citations == Dict([("normalized_citations", List([])), ("format", Str("bluebook")), ("total_processed", Int(0))])
  {
    var outer := EmptyCitationResult.entries;
    assert outer[0].0[0] == 's' && outer[1].0[0] == 'd';
    FindAt(outer, 1);
    var data := outer[1].1.entries;
    assert data[0].0[0] == 'n' && data[1].0[0] == 'f' && data[2].0[0] == 't';
    FindAt(data, 0);
  }

  // ---------------------------------------------------------------------------
  // Citation normalization.

  /** The answer to a request with no citations. */
  const NoCitationsBody: Value :=
    Dict([("success", Bool(true)), ("data", Dict([("normalized_citations", List([])), ("total_processed", Int(0))]))])

  /** The guards of `/api/normalize-citations`: a missing or empty body is refused;
      no citations (default empty) is a success with nothing in it. Before the
      layer is called the route measures the citations, and shows the first three
      when there are more, so citations without a length, and a dict of more than
      three, raise. */
  function NormalizeGuard(data: Value): (r: Step<Value>)
    ensures !Truthy(data) ==> r == Respond(400, ErrorBody(NoJsonError))
    ensures Truthy(data) && data.Dict? && !Truthy(Find(data.entries, "citations").GetOr(List([]))) ==> r == Respond(200, NoCitationsBody)
    ensures r.Proceed? <==> (data.Dict? && Truthy(Find(data.entries, "citations").GetOr(List([])))
      && (Find(data.entries, "citations").GetOr(List([])).Str? || Find(data.entries, "citations").GetOr(List([])).List?
          || (Find(data.entries, "citations").GetOr(List([])).Dict? && |Find(data.entries, "citations").GetOr(List([])).entries| <= 3)))
    ensures r.Proceed? ==> r.value == Find(data.entries, "citations").GetOr(List([]))
  {
    if !Truthy(data) then Respond(400, ErrorBody(NoJsonError))
    else
      match Get(data, "citations", List([]))
      case None => Crash
      case Some(citations) =>
        if !Truthy(citations) then Respond(200, NoCitationsBody)
        else
          match PyLen(citations)
          case None => Crash
          case Some(n) => if citations.Dict? && n > 3 then Crash else Proceed(citations)
  }

  // ---------------------------------------------------------------------------
  // Orchestration.

  /** The guards of `/api/orchestrate`: a missing or empty body, then a missing or
      empty `user_request`, are refused; the context defaults to an empty dict. */
  function OrchestrateGuard(data: Value): (r: Step<(Value, Value)>)
    ensures !Truthy(data) ==> r == Respond(400, ErrorBody(NoJsonError))
    ensures r.Proceed? <==> data.Dict? && Truthy(Find(data.entries, "user_request").GetOr(Null))
    ensures r.Proceed? ==> (r.value.0 == Find(data.entries, "user_request").value
      && r.value.1 == Find(data.entries, "current_context").GetOr(Dict([])))
    ensures Truthy(data) && data.Dict? && !Truthy(Find(data.entries, "user_request").GetOr(Null)) ==> r == Respond(400, ErrorBody(NoRequestError))
  {
    if !Truthy(data) then Respond(400, ErrorBody(NoJsonError))
    else if !data.Dict? then Crash
    else
      var request := Find(data.entries, "user_request").GetOr(Null);
      var context := Find(data.entries, "current_context").GetOr(Dict([]));
      if !Truthy(request) then Respond(400, ErrorBody(NoRequestError)) else Proceed((request, context))
  }

  // ---------------------------------------------------------------------------
  // Preferences.

  /** The guards of a `POST`/`PUT` to `/api/preferences`: a missing or empty body
      is refused, then a missing or empty `category`; `updates` default to an
      empty dict. */
  function PreferencesWriteGuard(data: Value): (r: Step<(Value, Value)>)
    ensures !Truthy(data) ==> r == Respond(400, ErrorBody(NoDataError))
    ensures r.Proceed? <==> data.Dict? && Truthy(Find(data.entries, "category").GetOr(Null))
    ensures r.Proceed? ==> (r.value.0 == Find(data.entries, "category").value
      && r.value.1 == Find(data.entries, "updates").GetOr(Dict([])))
  {
    if !Truthy(data) then Respond(400, ErrorBody(NoDataError))
    else if !data.Dict? then Crash
    else
      var category := Find(data.entries, "category").GetOr(Null);
      var updates := Find(data.entries, "updates").GetOr(Dict([]));
      if !Truthy(category) then Respond(400, ErrorBody(NoCategoryError)) else Proceed((category, updates))
  }

  /** The status of a preference change: 200 when the layer reports success, 400
      when it reports an error. */
  function OutcomeStatus(o: MemoryLayer.Outcome): nat {
    if o.Done? then 200 else 400
  }

  /** A `POST`/`PUT` to `/api/preferences`, with `saved` the outcome of writing the
      file. A category that is not a string is never one of the preference
      categories, so the layer refuses it and nothing changes. */
  function WritePreferences(m: MemoryLayer.Memory, data: Value, saved: bool): (r: (MemoryLayer.Memory, Step<nat>))
    ensures !r.1.Proceed? ==> r.0 == m
    ensures r.1.Proceed? ==> r.1.value == 200 || r.1.value == 400
    ensures PreferencesWriteGuard(data).Proceed? && !PreferencesWriteGuard(data).value.0.Str? ==> r == (m, Proceed(400))
  {
    match PreferencesWriteGuard(data)
    case Proceed((category, updates)) =>
      if !category.Str? then (m, Proceed(400))
      else
        var (m', outcome) := MemoryLayer.UpdatePreferences(m, category.s, updates, saved);
        (m', Proceed(OutcomeStatus(outcome)))
    case Respond(status, body) => (m, Respond(status, body))
    case Crash => (m, Crash)
  }

  /** A write followed by a read: once a dict of updates to a dict category is
      saved, the route answers 200 and a `GET` of that category reads each
      updated key's new value. */
  lemma WriteThenRead(m: MemoryLayer.Memory, data: Value, category: string, updates: Value, key: string)
    requires data.Dict? && Find(data.entries, "category") == Some(Str(category)) && category != []
    requires Find(data.entries, "updates") == Some(updates) && updates.Dict? && DistinctKeys(updates.entries)
    requires HasKey(m.preferences, category) && Find(m.preferences, category).value.Dict?
    requires HasKey(updates.entries, key)
    ensures var (m', status) := WritePreferences(m, data, true);
      var read := MemoryLayer.GetPreferences(m', Some(category));
      status == Proceed(200) && read.Dict? && Find(read.entries, key) == Find(updates.entries, key)
  {
    assert PreferencesWriteGuard(data) == Proceed((Str(category), updates));
    var (m', outcome) := MemoryLayer.UpdatePreferences(m, category, updates, true);
    MemoryLayer.UpdateDictCategory(m, category, updates, true, key, category + "_");
    assert WritePreferences(m, data, true) == (m', Proceed(200));
    KeysHasKey(m.preferences, category);
    KeysHasKey(m'.preferences, category);
  }

  /** A `DELETE` to `/api/preferences`: the query's category (or none) is reset. */
  function ResetPreferencesRoute(m: MemoryLayer.Memory, category: Option<string>, saved: bool): (r: (MemoryLayer.Memory, nat))
    ensures r.1 == 200 || r.1 == 400
    ensures category.Some? && category.value != [] && !HasKey(MemoryLayer.DefaultPreferences, category.value) ==> r == (m, 400)
    ensures r.1 == 200 <==> saved && (category.None? || category.value == [] || HasKey(MemoryLayer.DefaultPreferences, category.value))
  {
    var (m', outcome) := MemoryLayer.ResetPreferences(m, category, saved);
    (m', OutcomeStatus(outcome))
  }
}
