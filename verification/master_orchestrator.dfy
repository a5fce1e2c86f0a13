/** The master orchestrator (server/agents/master_orchestrator.py): one model call
    to plan the agent sequence, Gemini first and Ollama second, with a keyword
    planner as the last resort; and its own plan validator, which unlike the
    decision layer's does not report unknown agent ids.

    The model calls are single attempts here (no retry loop), so each backend's
    reply is one value. Prompt formatting is not modelled: the context only feeds
    the prompt. */
module MasterOrchestrator {
  import opened Wrappers
  import opened Values
  import opened Registry
  import PyText
  import PerceptionLayer
  import DecisionLayer

  /** What `orchestrate` returns: the plan (`data`) with the tag of what produced
      it, or a failure message. */
  datatype Orchestration = Orchestrated(plan: Value, modelUsed: string) | OrchestrationFailed(error: string)

  /** What one backend step returns: a plan, or the error that step reports. */
  datatype Step = StepPlan(plan: Value) | StepError(error: string)

  // ---------------------------------------------------------------------------
  // Reading the model's answer.

  /** `_parse_orchestration_response`: decode the `\{.*\}` span when there is one,
      else the whole text; `None` when decoding raises. */
  function ParseOrchestrationResponse(text: string, loads: string -> Option<Value>): (r: Option<Value>)
    ensures PerceptionLayer.BraceSpan(text).Some? ==> r == loads(PerceptionLayer.BraceSpan(text).value)
    ensures PerceptionLayer.BraceSpan(text).None? ==> r == loads(text)
  {
    match PerceptionLayer.BraceSpan(text)
    case Some(span) => loads(span)
    case None => loads(text)
  }

  /** The orchestrator's parser decodes one candidate text where the perception
      layer's tries up to three: when the whole text decodes and also holds a
      brace span, the orchestrator reads the span and the perception layer the
      whole text. When there is no span both read the whole text, and a failed
      decode is then final for the orchestrator. */
  lemma ParsersAgreeWithoutSpan(text: string, loads: string -> Option<Value>, fence: string -> Option<string>)
    requires PerceptionLayer.BraceSpan(text).None?
    ensures loads(text).Some? ==> ParseOrchestrationResponse(text, loads) == PerceptionLayer.ParseJsonResponse(text, loads, fence)
    ensures loads(text).None? ==> ParseOrchestrationResponse(text, loads) == None
  {
  }

  /** `_orchestrate_with_gemini` after the call: an exception, empty text, or an
      answer that does not decode to a truthy value is an error. */
  function OrchestrateWithGemini(reply: PerceptionLayer.GeminiReply, loads: string -> Option<Value>): (r: Step)
    ensures r.StepPlan? <==>
      reply.GeminiText? && reply.text != []
      && ParseOrchestrationResponse(reply.text, loads).Some?
      && Truthy(ParseOrchestrationResponse(reply.text, loads).value)
    ensures r.StepPlan? ==> r.plan == ParseOrchestrationResponse(reply.text, loads).value
  {
    match reply
    case GeminiRaised(m) => StepError("Gemini orchestration failed: " + m)
    case GeminiText(text) =>
      if text == [] then StepError("Empty response from Gemini")
      else
        match ParseOrchestrationResponse(text, loads)
        case None => StepError("Failed to parse Gemini orchestration response")
        case Some(plan) =>
          if !Truthy(plan) then StepError("Failed to parse Gemini orchestration response")
          else StepPlan(plan)
  }

  /** `_orchestrate_with_ollama` after the call: an exception, a status other than
      200, an empty `response` field, or an answer that does not decode to a truthy
      value is an error. */
  function OrchestrateWithOllama(reply: PerceptionLayer.OllamaReply, loads: string -> Option<Value>): (r: Step)
    ensures r.StepPlan? <==>
      reply.OllamaHttp? && reply.status == 200 && reply.text != []
      && ParseOrchestrationResponse(reply.text, loads).Some?
      && Truthy(ParseOrchestrationResponse(reply.text, loads).value)
    ensures r.StepPlan? ==> r.plan == ParseOrchestrationResponse(reply.text, loads).value
    ensures reply.OllamaHttp? && reply.status != 200 ==>
      r == StepError("Ollama API error: " + PyText.IntToString(reply.status))
  {
    match reply
    case OllamaRaised(m) => StepError("Ollama orchestration failed: " + m)
    case OllamaHttp(status, text) =>
      if status != 200 then StepError("Ollama API error: " + PyText.IntToString(status))
      else if text == [] then StepError("Empty response from Ollama")
      else
        match ParseOrchestrationResponse(text, loads)
        case None => StepError("Failed to parse Ollama orchestration response")
        case Some(plan) =>
          if !Truthy(plan) then StepError("Failed to parse Ollama orchestration response")
          else StepPlan(plan)
  }

  // ---------------------------------------------------------------------------
  // The default plan.

  /** The keyword table, with the full sequence when no keyword occurs. */
  function DefaultSequence(request: string): seq<string> {
    DecisionLayer.KeywordSequence(request).GetOr(DecisionLayer.FullSequence)
  }

  /** The default planner is the decision layer's rule-based choice with
      `auto_generate_brief` switched on. */
  lemma DefaultIsRuleWithAutoBrief(request: string)
    ensures DecisionLayer.RuleSequence(request, Dict([("general", Dict([("auto_generate_brief", Bool(true))]))]))
      == Some(DefaultSequence(request))
  {
  }

  function DefaultReason(agent: string): string {
    "Default selection for " + agent
  }

  /** The default planner picks one of the three dependency-ordered sequences. */
  lemma DefaultSequenceOrdered(request: string)
    ensures DefaultSequence(request) in {DecisionLayer.FullSequence, DecisionLayer.ShortSequence, DecisionLayer.SimilarSequence}
    ensures DecisionLayer.DependencyOrdered(DefaultSequence(request))
  {
    DecisionLayer.FullSequenceOrdered();
    DecisionLayer.ShortSequenceOrdered();
    DecisionLayer.SimilarSequenceOrdered();
  }

  /** `_get_default_orchestration_plan(user_request, ...)`'s `data`. */
  function DefaultPlan(request: string): (plan: Value)
    ensures DecisionLayer.HasStringSequence(plan, DefaultSequence(request))
    ensures HasKey(plan.entries, "selected_agents")
    ensures Find(plan.entries, "conditional_logic") == Some(DecisionLayer.DefaultConditionalLogic)
    ensures Find(plan.entries, "confidence") == Some(Real(0.7))
  {
    DefaultSequenceOrdered(request);
    DecisionLayer.BuildPlan("Default orchestration for request: " + PyText.Take(request, 100) + "...", DefaultReason, DefaultSequence(request))
  }

  // ---------------------------------------------------------------------------
  // The orchestration ladder.

  /** `PRIMARY_MODEL`, `FALLBACK_MODEL` and which backends were set up. */
  datatype Setup = Setup(primaryModel: string, fallbackModel: string, geminiModel: bool, ollamaAvailable: bool)

  /** `orchestrate(user_request, current_context)`, given what each backend's one
      call returns: Gemini when it is the primary model and set up, then Ollama
      when it is the fallback model and available, then the default plan. */
  function Orchestrate(request: string, setup: Setup, gemini: PerceptionLayer.GeminiReply,
                       ollama: PerceptionLayer.OllamaReply, loads: string -> Option<Value>): (r: Orchestration)
    ensures r.Orchestrated?
    ensures r.modelUsed in {"gemini", "ollama", "default"}
  {
    var first := if setup.primaryModel == "gemini" && setup.geminiModel then OrchestrateWithGemini(gemini, loads)
                 else StepError("");
    if setup.primaryModel == "gemini" && setup.geminiModel && first.StepPlan? then Orchestrated(first.plan, "gemini")
    else
      var second := if setup.fallbackModel == "ollama" && setup.ollamaAvailable then OrchestrateWithOllama(ollama, loads)
                    else StepError("");
      if setup.fallbackModel == "ollama" && setup.ollamaAvailable && second.StepPlan? then Orchestrated(second.plan, "ollama")
      else Orchestrated(DefaultPlan(request), "default")
  }

  /** Which rung answered: Gemini exactly when it was tried and produced a plan;
      Ollama exactly when Gemini did not and Ollama was tried and produced one;
      otherwise the default plan. */
  lemma OrchestrateLadder(request: string, setup: Setup, gemini: PerceptionLayer.GeminiReply,
                          ollama: PerceptionLayer.OllamaReply, loads: string -> Option<Value>)
    ensures var r := Orchestrate(request, setup, gemini, ollama, loads);
      var geminiOk := setup.primaryModel == "gemini" && setup.geminiModel && OrchestrateWithGemini(gemini, loads).StepPlan?;
      var ollamaOk := setup.fallbackModel == "ollama" && setup.ollamaAvailable && OrchestrateWithOllama(ollama, loads).StepPlan?;
      (r.modelUsed == "gemini" <==> geminiOk)
      && (r.modelUsed == "ollama" <==> !geminiOk && ollamaOk)
      && (r.modelUsed == "default" <==> !geminiOk && !ollamaOk)
      && (r.modelUsed == "default" ==> r.plan == DefaultPlan(request))
  {
  }

  // ---------------------------------------------------------------------------
  // The orchestrator's validator.

  /** `validate_orchestration_plan(plan)`: the decision layer's checks without the
      unknown-agent error; `None` where the Python code raises. */
  function ValidateOrchestrationPlan(plan: Value): (r: Option<DecisionLayer.Validation>)
    ensures plan.Dict? && !HasKey(plan.entries, "execution_sequence") ==> r.Some?
    ensures r.Some? ==> (r.value.isValid <==> r.value.errors == []) && r.value.suggestions == []
    ensures r.Some? && plan.Dict? && !(HasKey(plan.entries, "selected_agents") && HasKey(plan.entries, "execution_sequence"))
      ==> !r.value.isValid
  {
    var hasAgents :- Has(plan, "selected_agents");
    var hasSequence := Has(plan, "execution_sequence").value;
    var missing := (if hasAgents then [] else [DecisionLayer.MissingField("selected_agents")])
      + (if hasSequence then [] else [DecisionLayer.MissingField("execution_sequence")]);
    if !hasSequence then Some(DecisionLayer.Validation(false, [], missing, []))
    else
      var sequence :- Index(plan, "execution_sequence");
      var items :- Iterate(sequence);
      if sequence.Dict? && exists i :: 0 <= i < |sequence.entries| && IsAgent(sequence.entries[i].0) && Deps(sequence.entries[i].0) != [] then
        None
      else
        var first :- DecisionLayer.FirstPass(items, 0);
        var errors := missing + DecisionLayer.SecondPass(items, 0);
        Some(DecisionLayer.Validation(errors == [], first.warnings, errors, []))
  }

  /** The issues other than unknown-agent errors, in order. */
  function WithoutUnknown(issues: seq<DecisionLayer.Issue>): (r: seq<DecisionLayer.Issue>)
    ensures forall w :: w in r <==> w in issues && !w.UnknownAgent?
  {
    if issues == [] then []
    else
      assert issues == [issues[0]] + issues[1..];
      (if issues[0].UnknownAgent? then [] else [issues[0]]) + WithoutUnknown(issues[1..])
  }

  lemma {:induction false} WithoutUnknownAppend(a: seq<DecisionLayer.Issue>, b: seq<DecisionLayer.Issue>)
    ensures WithoutUnknown(a + b) == WithoutUnknown(a) + WithoutUnknown(b)
  {
    if a != [] {
      assert (a + b)[0] == a[0] && (a + b)[1..] == a[1..] + b;
      WithoutUnknownAppend(a[1..], b);
      var head := if a[0].UnknownAgent? then [] else [a[0]];
      assert WithoutUnknown(a + b) == head + (WithoutUnknown(a[1..]) + WithoutUnknown(b));
      assert WithoutUnknown(a) == head + WithoutUnknown(a[1..]);
    } else {
      assert a + b == b;
    }
  }

  lemma {:induction false} WithoutUnknownKeeps(issues: seq<DecisionLayer.Issue>)
    requires forall w :: w in issues ==> !w.UnknownAgent?
    ensures WithoutUnknown(issues) == issues
  {
    if issues != [] {
      assert issues[0] in issues;
      assert forall w :: w in issues[1..] ==> w in issues;
      WithoutUnknownKeeps(issues[1..]);
    }
  }

  lemma {:induction false} WithoutUnknownDrops(issues: seq<DecisionLayer.Issue>)
    requires forall w :: w in issues ==> w.UnknownAgent?
    ensures WithoutUnknown(issues) == []
  {
    if issues != [] {
      assert issues[0] in issues;
      assert forall w :: w in issues[1..] ==> w in issues;
      WithoutUnknownDrops(issues[1..]);
    }
  }

  /** The two validators raise on the same plans and give the same warnings; the
      orchestrator's errors are the decision layer's without the unknown-agent
      errors, and it calls a plan valid exactly when that list is empty. */
  lemma OrchestratorIsLayerWithoutUnknown(plan: Value)
    ensures ValidateOrchestrationPlan(plan).Some? <==> DecisionLayer.ValidateExecutionPlan(plan).Some?
    ensures ValidateOrchestrationPlan(plan).Some? ==>
      var o := ValidateOrchestrationPlan(plan).value;
      var l := DecisionLayer.ValidateExecutionPlan(plan).value;
      o.warnings == l.warnings && o.errors == WithoutUnknown(l.errors) && o.isValid == (o.errors == [])
  {
    if ValidateOrchestrationPlan(plan).Some? && plan.Dict? && HasKey(plan.entries, "execution_sequence") {
      var sequence := Find(plan.entries, "execution_sequence").value;
      var items := Iterate(sequence).value;
      var first := DecisionLayer.FirstPass(items, 0).value;
      var second := DecisionLayer.SecondPass(items, 0);
      var missing := if HasKey(plan.entries, "selected_agents") then [] else [DecisionLayer.MissingField("selected_agents")];
      forall w | w in first.errors ensures w.UnknownAgent? {
        DecisionLayer.FirstPassErrors(items, 0, w);
      }
      forall w | w in second ensures !w.UnknownAgent? {
        DecisionLayer.SecondPassErrors(items, 0, w);
      }
      WithoutUnknownAppend(missing + first.errors, second);
      WithoutUnknownAppend(missing, first.errors);
      WithoutUnknownKeeps(missing);
      WithoutUnknownDrops(first.errors);
      WithoutUnknownKeeps(second);
    } else if ValidateOrchestrationPlan(plan).Some? {
      var missing := DecisionLayer.ValidateExecutionPlan(plan).value.errors;
      WithoutUnknownKeeps(missing);
    }
  }

  /** The default plan passes both validators with nothing to report. */
  lemma DefaultPlanClean(request: string)
    ensures DecisionLayer.ValidateExecutionPlan(DefaultPlan(request)) == Some(DecisionLayer.Validation(true, [], [], []))
    ensures ValidateOrchestrationPlan(DefaultPlan(request)) == Some(DecisionLayer.Validation(true, [], [], []))
  {
    var plan := DefaultPlan(request);
    DefaultSequenceOrdered(request);
    DecisionLayer.OrderedPlanClean(plan, DefaultSequence(request));
    OrchestratorIsLayerWithoutUnknown(plan);
  }
}
