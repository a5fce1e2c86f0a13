/** The perception layer: which model backend answers a prompt, how often each is
    retried, how the answer is tagged, and how a JSON object is dug out of the
    answer text (server/layers/perception_layer.py).

    The network is not modelled. Each backend's replies are given as a function
    from the attempt number (counted from the first call to that backend within
    one `process_with_llm`) to what the transport returned. JSON decoding and the
    fenced-block regular expression are parameters. */
module PerceptionLayer {
  import opened Wrappers
  import opened Values
  import PyText

  datatype Backend = Gemini | Ollama

  /** Which backends were set up: a Gemini model object exists; Ollama answered
      its availability probe. */
  datatype Liveness = Liveness(geminiModel: bool, ollamaAvailable: bool)

  /** `PRIMARY_MODEL` and `FALLBACK_MODEL` from the configuration. */
  datatype ModelConfig = ModelConfig(primaryModel: string, fallbackModel: string)

  /** What one call to `generate_content` produced. */
  datatype GeminiReply = GeminiText(text: string) | GeminiRaised(message: string)

  /** What one POST to Ollama's generate endpoint produced: an HTTP status with the
      body's `response` text, or an exception (network error, bad JSON body). */
  datatype OllamaReply = OllamaHttp(status: int, text: string) | OllamaRaised(message: string)

  /** One attempt, judged: an answer, or the error that attempt would report. */
  datatype Attempt = Answered(text: string) | Failed(error: string)

  datatype CallResult = CallOk(response: string) | CallErr(error: string)

  /** The outcome of one backend call and how many transport attempts it used. */
  datatype BackendRun = BackendRun(result: CallResult, attempts: nat)

  /** The outcome of `process_with_llm`; `modelUsed` is the backend tag. */
  datatype LlmResult = LlmOk(response: string, modelUsed: string) | LlmErr(error: string)

  /** `process_with_llm`'s outcome together with the attempts spent per backend. */
  datatype Processed = Processed(result: LlmResult, geminiAttempts: nat, ollamaAttempts: nat)

  function BackendName(b: Backend): string {
    match b
    case Gemini => "gemini"
    case Ollama => "ollama"
  }

  function MaxRetriesMessage(b: Backend): string {
    match b
    case Gemini => "Max retries exceeded for Gemini"
    case Ollama => "Max retries exceeded for Ollama"
  }

  /** A Gemini attempt answers with non-empty text; empty text and exceptions fail. */
  function JudgeGemini(r: GeminiReply): (a: Attempt)
    ensures a.Answered? <==> r.GeminiText? && r.text != []
  {
    match r
    case GeminiText(t) => if t == [] then Failed("Empty response from Gemini") else Answered(t)
    case GeminiRaised(m) => Failed("Gemini error: " + m)
  }

  /** An Ollama attempt answers with status 200 and non-empty text. */
  function JudgeOllama(r: OllamaReply): (a: Attempt)
    ensures a.Answered? <==> r.OllamaHttp? && r.status == 200 && r.text != []
  {
    match r
    case OllamaHttp(status, t) =>
      if status != 200 then Failed("Ollama API error: " + PyText.IntToString(status))
      else if t == [] then Failed("Empty response from Ollama")
      else Answered(t)
    case OllamaRaised(m) => Failed("Ollama error: " + m)
  }

  /** The retry loop of `_process_with_gemini` / `_process_with_ollama` from loop
      index `k` on; `attempt(g)` is the judged outcome of global attempt `g`, and
      loop index `k` is global attempt `start + k`. A failed attempt is retried
      unless it is the last one allowed, whose error is returned. */
  function RetryFrom(b: Backend, attempt: nat -> Attempt, start: nat, k: nat, maxRetries: int): (r: BackendRun)
    ensures maxRetries <= k ==> r == BackendRun(CallErr(MaxRetriesMessage(b)), 0)
    ensures k < maxRetries ==> 1 <= r.attempts <= maxRetries - k
    ensures forall g :: start + k <= g < start + k + r.attempts - 1 ==> attempt(g).Failed?
    ensures r.result.CallOk? ==> r.attempts >= 1 && attempt(start + k + r.attempts - 1) == Answered(r.result.response)
    ensures r.result.CallErr? && k < maxRetries ==>
      r.attempts == maxRetries - k && attempt(start + maxRetries - 1) == Failed(r.result.error)
    decreases maxRetries - k
  {
    if maxRetries <= k then BackendRun(CallErr(MaxRetriesMessage(b)), 0)
    else
      match attempt(start + k)
      case Answered(t) => BackendRun(CallOk(t), 1)
      case Failed(e) =>
        if k < maxRetries - 1 then
          var rest := RetryFrom(b, attempt, start, k + 1, maxRetries);
          BackendRun(rest.result, rest.attempts + 1)
        else BackendRun(CallErr(e), 1)
  }

  /** One call to a backend, starting at its global attempt number `start`. */
  function CallBackend(b: Backend, gemini: nat -> GeminiReply, ollama: nat -> OllamaReply, start: nat, maxRetries: int): BackendRun {
    match b
    case Gemini => RetryFrom(b, (g: nat) => JudgeGemini(gemini(g)), start, 0, maxRetries)
    case Ollama => RetryFrom(b, (g: nat) => JudgeOllama(ollama(g)), start, 0, maxRetries)
  }

  function IsLive(b: Backend, live: Liveness): bool {
    match b
    case Gemini => live.geminiModel
    case Ollama => live.ollamaAvailable
  }

  /** The primary and fallback model names: a truthy `preferred_model` is primary,
      with Ollama as fallback when it is `'gemini'` and Gemini otherwise; without
      one, both come from the configuration. */
  function Candidates(preferred: Value, cfg: ModelConfig): (r: (Value, Value))
    ensures Truthy(preferred) ==> r.0 == preferred && r.1 == Str(if preferred == Str("gemini") then "ollama" else "gemini")
    ensures !Truthy(preferred) ==> r == (Str(cfg.primaryModel), Str(cfg.fallbackModel))
  {
    if Truthy(preferred) then (preferred, if preferred == Str("gemini") then Str("ollama") else Str("gemini"))
    else (Str(cfg.primaryModel), Str(cfg.fallbackModel))
  }

  /** One of the four tries of `process_with_llm`: once an earlier try succeeded
      nothing happens; otherwise backend `b` is called when `wanted` names it and it
      is live, and a success is tagged `tag`. */
  function Try(b: Backend, wanted: Value, tag: string, live: Liveness,
               gemini: nat -> GeminiReply, ollama: nat -> OllamaReply, maxRetries: int,
               prev: Processed): Processed
  {
    if prev.result.LlmOk? || wanted != Str(BackendName(b)) || !IsLive(b, live) then prev
    else
      var start := if b == Gemini then prev.geminiAttempts else prev.ollamaAttempts;
      var run := CallBackend(b, gemini, ollama, start, maxRetries);
      var result := if run.result.CallOk? then LlmOk(run.result.response, tag) else prev.result;
      if b == Gemini then Processed(result, prev.geminiAttempts + run.attempts, prev.ollamaAttempts)
      else Processed(result, prev.geminiAttempts, prev.ollamaAttempts + run.attempts)
  }

  /** `process_with_llm`: primary Gemini, primary Ollama, fallback Gemini, fallback
      Ollama, first success wins; when none succeeds the error is
      "No LLM models available". */
  function ProcessWithLlm(preferred: Value, cfg: ModelConfig, live: Liveness,
                          gemini: nat -> GeminiReply, ollama: nat -> OllamaReply, maxRetries: int): Processed
  {
    var (primary, fallback) := Candidates(preferred, cfg);
    var p0 := Processed(LlmErr("No LLM models available"), 0, 0);
    var p1 := Try(Gemini, primary, "gemini", live, gemini, ollama, maxRetries, p0);
    var p2 := Try(Ollama, primary, "ollama", live, gemini, ollama, maxRetries, p1);
    var p3 := Try(Gemini, fallback, "gemini (fallback)", live, gemini, ollama, maxRetries, p2);
    Try(Ollama, fallback, "ollama (fallback)", live, gemini, ollama, maxRetries, p3)
  }

  function Max0(n: int): nat {
    if n < 0 then 0 else n
  }

  function Spent(p: Processed): nat {
    p.geminiAttempts + p.ollamaAttempts
  }

  /** One try spends at most `max_retries` attempts, and none unless `wanted`
      names its backend. */
  lemma TryBound(b: Backend, wanted: Value, tag: string, live: Liveness,
                 gemini: nat -> GeminiReply, ollama: nat -> OllamaReply, maxRetries: int, prev: Processed)
    ensures Spent(Try(b, wanted, tag, live, gemini, ollama, maxRetries, prev))
      <= Spent(prev) + (if wanted == Str(BackendName(b)) then Max0(maxRetries) else 0)
  {
  }

  /** One `process_with_llm` call makes at most `2 * max_retries` transport
      attempts: at most one primary and one fallback backend call run. */
  lemma AttemptsBound(preferred: Value, cfg: ModelConfig, live: Liveness,
                      gemini: nat -> GeminiReply, ollama: nat -> OllamaReply, maxRetries: int)
    ensures Spent(ProcessWithLlm(preferred, cfg, live, gemini, ollama, maxRetries)) <= 2 * Max0(maxRetries)
  {
    var (primary, fallback) := Candidates(preferred, cfg);
    var p0 := Processed(LlmErr("No LLM models available"), 0, 0);
    var p1 := Try(Gemini, primary, "gemini", live, gemini, ollama, maxRetries, p0);
    var p2 := Try(Ollama, primary, "ollama", live, gemini, ollama, maxRetries, p1);
    var p3 := Try(Gemini, fallback, "gemini (fallback)", live, gemini, ollama, maxRetries, p2);
    var p4 := Try(Ollama, fallback, "ollama (fallback)", live, gemini, ollama, maxRetries, p3);
    TryBound(Gemini, primary, "gemini", live, gemini, ollama, maxRetries, p0);
    TryBound(Ollama, primary, "ollama", live, gemini, ollama, maxRetries, p1);
    TryBound(Gemini, fallback, "gemini (fallback)", live, gemini, ollama, maxRetries, p2);
    TryBound(Ollama, fallback, "ollama (fallback)", live, gemini, ollama, maxRetries, p3);
    assert Str("gemini") != Str("ollama");
    assert p4 == ProcessWithLlm(preferred, cfg, live, gemini, ollama, maxRetries);
  }

  /** A failure always carries the fixed "No LLM models available" message, and a
      success is tagged with the backend and role that produced it. */
  lemma ResultTags(preferred: Value, cfg: ModelConfig, live: Liveness,
                   gemini: nat -> GeminiReply, ollama: nat -> OllamaReply, maxRetries: int)
    ensures var p := ProcessWithLlm(preferred, cfg, live, gemini, ollama, maxRetries);
      var (primary, fallback) := Candidates(preferred, cfg);
      (p.result.LlmErr? ==> p.result.error == "No LLM models available")
      && (p.result.LlmOk? ==>
        (p.result.modelUsed == "gemini" && primary == Str("gemini") && live.geminiModel)
        || (p.result.modelUsed == "ollama" && primary == Str("ollama") && live.ollamaAvailable)
        || (p.result.modelUsed == "gemini (fallback)" && fallback == Str("gemini") && live.geminiModel)
        || (p.result.modelUsed == "ollama (fallback)" && fallback == Str("ollama") && live.ollamaAvailable))
  {
  }

  /** With no live backend nothing is attempted and the call fails. */
  lemma NothingLive(preferred: Value, cfg: ModelConfig, gemini: nat -> GeminiReply, ollama: nat -> OllamaReply, maxRetries: int)
    ensures ProcessWithLlm(preferred, cfg, Liveness(false, false), gemini, ollama, maxRetries)
      == Processed(LlmErr("No LLM models available"), 0, 0)
  {
  }

  /** A preferred Gemini whose model is missing hands the prompt to Ollama as the
      fallback; Ollama's first good answer is returned, tagged as the fallback. */
  lemma DeadPrimaryFallsBack(cfg: ModelConfig, ollamaLive: bool, gemini: nat -> GeminiReply, ollama: nat -> OllamaReply, maxRetries: int)
    requires ollamaLive && maxRetries >= 1
    requires JudgeOllama(ollama(0)).Answered?
    ensures ProcessWithLlm(Str("gemini"), cfg, Liveness(false, ollamaLive), gemini, ollama, maxRetries)
      == Processed(LlmOk(ollama(0).text, "ollama (fallback)"), 0, 1)
  {
  }

  /** When the primary backend's first attempt answers, that answer is the result
      and the fallback is never called. */
  lemma PrimaryAnswerWins(preferred: Value, cfg: ModelConfig, live: Liveness,
                          gemini: nat -> GeminiReply, ollama: nat -> OllamaReply, maxRetries: int)
    requires preferred == Str("gemini") && live.geminiModel && maxRetries >= 1
    requires JudgeGemini(gemini(0)).Answered?
    ensures ProcessWithLlm(preferred, cfg, live, gemini, ollama, maxRetries)
      == Processed(LlmOk(gemini(0).text, "gemini"), 1, 0)
  {
  }

  // ---------------------------------------------------------------------------
  // Digging a JSON value out of a model's answer.

  /** The text matched by the regular expression `\{.*\}` with DOTALL: from the
      first `{` to the last `}`, when that `}` comes after the `{`. */
  function BraceSpan(text: string): (r: Option<string>)
    ensures r.Some? ==>
      exists i, j :: 0 <= i < j < |text| && r.value == text[i..j + 1] && text[i] == '{' && text[j] == '}' && '{' !in text[..i] && '}' !in text[j + 1..]
    ensures r.None? <==> forall i, j :: 0 <= i < j < |text| && text[i] == '{' ==> text[j] != '}'
  {
    match PyText.FirstIndex(text, '{')
    case None => None
    case Some(i) =>
      match PyText.LastIndex(text, '}')
      case None => None
      case Some(j) =>
        if i < j then Some(text[i..j + 1])
        else
          assert forall i', j' :: 0 <= i' < j' < |text| && text[i'] == '{' ==> text[j'] != '}' by {
            forall i', j' | 0 <= i' < j' < |text| && text[i'] == '{' ensures text[j'] != '}' {
              if j' > j { assert text[j + 1..][j' - j - 1] == text[j']; }
            }
          }
          None
  }

  /** The span is a fixed point: it starts at its own first `{` and ends at its own
      last `}`. */
  lemma BraceSpanIdempotent(text: string)
    requires BraceSpan(text).Some?
    ensures BraceSpan(BraceSpan(text).value) == BraceSpan(text)
  {
    var sp := BraceSpan(text).value;
    var i := PyText.FirstIndex(text, '{').value;
    var j := PyText.LastIndex(text, '}').value;
    assert i < j && sp == text[i..j + 1];
    assert sp[0] == text[i] && sp[|sp| - 1] == text[j];
    assert PyText.FirstIndex(sp, '{') == Some(0);
    assert PyText.LastIndex(sp, '}') == Some(|sp| - 1);
    assert sp[0..|sp|] == sp;
  }

  /** `parse_json_response`: the whole text; else a fenced code block, whose
      decoding failure is final; else the brace span; else nothing. `loads` is
      `json.loads` (`None` when it raises) and `fence` yields the group of the
      fenced-block expression when it matches. */
  function ParseJsonResponse(text: string, loads: string -> Option<Value>, fence: string -> Option<string>): (r: Option<Value>)
    ensures loads(text).Some? ==> r == loads(text)
    ensures loads(text).None? && fence(text).Some? ==> r == loads(fence(text).value)
    ensures loads(text).None? && fence(text).None? ==>
      r == (if BraceSpan(text).Some? then loads(BraceSpan(text).value) else None)
  {
    if loads(text).Some? then loads(text)
    else
      match fence(text)
      case Some(block) => loads(block)
      case None =>
        match BraceSpan(text)
        case Some(span) => loads(span)
        case None => None
  }

  /** Whatever `parse_json_response` returns was produced by decoding the text, its
      fenced block, or its brace span. */
  lemma ParseSources(text: string, loads: string -> Option<Value>, fence: string -> Option<string>)
    ensures var r := ParseJsonResponse(text, loads, fence);
      r.Some? ==>
        (r == loads(text)
         || (fence(text).Some? && r == loads(fence(text).value))
         || (BraceSpan(text).Some? && r == loads(BraceSpan(text).value)))
  {
  }

  /** `get_prompt(key, **kwargs)`: the template under `key` filled in by `format`
      (`None` when formatting raises); "" when the prompts are not a dict, the
      template is missing or falsy, or formatting fails. */
  function GetPrompt(prompts: Value, key: string, format: Value -> Option<string>): (r: string)
    ensures (!prompts.Dict? || Find(prompts.entries, key).None? || !Truthy(Find(prompts.entries, key).value)) ==> r == ""
    ensures prompts.Dict? && Find(prompts.entries, key).Some? && Truthy(Find(prompts.entries, key).value)
      ==> r == format(Find(prompts.entries, key).value).GetOr("")
  {
    match Get(prompts, key, Str(""))
    case None => ""
    case Some(template) =>
      if !Truthy(template) then ""
      else format(template).GetOr("")
  }
}
