/** The decision layer: plan validation against the agent registry, the
    rule-based planner used when no model answers, the conditional-skip rule and
    the top-level planning step (server/layers/decision_layer.py). */
module DecisionLayer {
  import opened Wrappers
  import opened Values
  import opened Registry
  import PyText
  import PerceptionLayer

  /** One entry of a validation report's `warnings` or `errors` list. */
  datatype Issue =
    | MissingField(field: string)
    | UnknownAgent(item: Value)
    | NotExecutedBefore(agent: string, dep: string)
    | CircularDependency(agent: string, dep: string)

  /** The report `validate_execution_plan` returns; `suggestions` stays empty. */
  datatype Validation = Validation(
    isValid: bool,
    warnings: seq<Issue>,
    errors: seq<Issue>,
    suggestions: seq<string>)

  /** The text the source puts in the report for an issue; `show` is Python's
      `str()` of a non-string value. */
  function Message(issue: Issue, show: Value -> string): string {
    match issue
    case MissingField(f) => "Missing required field: " + f
    case UnknownAgent(a) => "Unknown agent: " + (if a.Str? then a.s else show(a))
    case NotExecutedBefore(a, d) => "Agent " + a + " requires " + d + " but it's not executed before"
    case CircularDependency(a, d) => "Circular dependency detected: " + a + " -> " + d
  }

  /** A sequence item naming a registry agent. */
  predicate Known(v: Value) {
    v.Str? && IsAgent(v.s)
  }

  /** The dependencies of `agent` that are not among `before`, in dependency order. */
  function DepsMissingFrom(deps: seq<string>, before: seq<Value>): (r: seq<string>)
    ensures forall d :: d in r <==> d in deps && Str(d) !in before
    ensures |r| <= |deps|
  {
    if deps == [] then []
    else (if Str(deps[0]) !in before then [deps[0]] else []) + DepsMissingFrom(deps[1..], before)
  }

  /** The dependencies of `agent` that occur among `after`, in dependency order. */
  function DepsPresentIn(deps: seq<string>, after: seq<Value>): (r: seq<string>)
    ensures forall d :: d in r <==> d in deps && Str(d) in after
    ensures |r| <= |deps|
  {
    if deps == [] then []
    else (if Str(deps[0]) in after then [deps[0]] else []) + DepsPresentIn(deps[1..], after)
  }

  function NotBeforeIssues(agent: string, ds: seq<string>): (r: seq<Issue>)
    ensures forall w :: w in r <==> exists d :: d in ds && w == NotExecutedBefore(agent, d)
  {
    if ds == [] then [] else [NotExecutedBefore(agent, ds[0])] + NotBeforeIssues(agent, ds[1..])
  }

  function CircularIssues(agent: string, ds: seq<string>): (r: seq<Issue>)
    ensures forall w :: w in r <==> exists d :: d in ds && w == CircularDependency(agent, d)
  {
    if ds == [] then [] else [CircularDependency(agent, ds[0])] + CircularIssues(agent, ds[1..])
  }

  datatype FirstPassReport = FirstPassReport(warnings: seq<Issue>, errors: seq<Issue>)

  /** The first loop of `validate_execution_plan`, from position `i` on: a known
      agent warns about each dependency not scheduled before it; any other
      hashable item is an unknown-agent error; a list or dict item raises. */
  function FirstPass(items: seq<Value>, i: nat): Option<FirstPassReport>
    decreases |items| - i
  {
    if i >= |items| then Some(FirstPassReport([], []))
    else
      var a := items[i];
      if Known(a) then
        var rest :- FirstPass(items, i + 1);
        Some(FirstPassReport(NotBeforeIssues(a.s, DepsMissingFrom(Deps(a.s), items[..i])) + rest.warnings, rest.errors))
      else if Unhashable(a) then None
      else
        var rest :- FirstPass(items, i + 1);
        Some(FirstPassReport(rest.warnings, [UnknownAgent(a)] + rest.errors))
  }

  /** The second loop, from position `i` on: a dependency found at or after its
      dependent's position is a circular-dependency error. */
  function SecondPass(items: seq<Value>, i: nat): seq<Issue>
    decreases |items| - i
  {
    if i >= |items| then []
    else
      var a := items[i];
      var here := if Known(a) then CircularIssues(a.s, DepsPresentIn(Deps(a.s), items[i..])) else [];
      here + SecondPass(items, i + 1)
  }

  /** `validate_execution_plan(plan)`: `None` where the Python code raises (a plan
      that does not support `in`, a sequence that is not iterable or not
      subscriptable, an unhashable sequence item). */
  function ValidateExecutionPlan(plan: Value): Option<Validation> {
    var hasAgents :- Has(plan, "selected_agents");
    var hasSequence :- Has(plan, "execution_sequence");
    var missing := (if hasAgents then [] else [MissingField("selected_agents")])
      + (if hasSequence then [] else [MissingField("execution_sequence")]);
    if !hasSequence then Some(Validation(false, [], missing, []))
    else
      var sequence :- Index(plan, "execution_sequence");
      var items :- Iterate(sequence);
      if sequence.Dict? && exists i :: 0 <= i < |sequence.entries| && IsAgent(sequence.entries[i].0) && Deps(sequence.entries[i].0) != [] then
        None
      else
        var first :- FirstPass(items, 0);
        var errors := missing + first.errors + SecondPass(items, 0);
        Some(Validation(errors == [], first.warnings, errors, []))
  }

  // ---------------------------------------------------------------------------
  // What the two passes report, item by item.

  lemma {:induction false} FirstPassDefined(items: seq<Value>, i: nat)
    ensures FirstPass(items, i).Some? <==> forall j :: i <= j < |items| ==> !Unhashable(items[j])
    decreases |items| - i
  {
    if i < |items| {
      FirstPassDefined(items, i + 1);
    }
  }

  /** The first pass warns about `d` for `a` exactly when `a` is a known agent at
      some position whose dependency `d` is not scheduled before that position. */
  lemma {:induction false} FirstPassWarnings(items: seq<Value>, i: nat, w: Issue)
    requires FirstPass(items, i).Some?
    ensures w in FirstPass(items, i).value.warnings <==>
      w.NotExecutedBefore? &&
      exists j :: i <= j < |items| && items[j] == Str(w.agent) && IsAgent(w.agent) && w.dep in Deps(w.agent) && Str(w.dep) !in items[..j]
    decreases |items| - i
  {
    if i < |items| {
      FirstPassWarnings(items, i + 1, w);
    }
  }

  /** The first pass reports each item that is not a registry agent, and nothing else. */
  lemma {:induction false} FirstPassErrors(items: seq<Value>, i: nat, w: Issue)
    requires FirstPass(items, i).Some?
    ensures w in FirstPass(items, i).value.errors <==>
      w.UnknownAgent? && exists j :: i <= j < |items| && items[j] == w.item && !Known(w.item)
    decreases |items| - i
  {
    if i < |items| {
      FirstPassErrors(items, i + 1, w);
    }
  }

  /** The issues one position of the second pass reports. */
  lemma SecondPassHere(items: seq<Value>, i: nat, w: Issue)
    requires i < |items|
    ensures var a := items[i];
      var here := if Known(a) then CircularIssues(a.s, DepsPresentIn(Deps(a.s), items[i..])) else [];
      w in here <==> w.CircularDependency? && items[i] == Str(w.agent) && IsAgent(w.agent)
                     && w.dep in Deps(w.agent) && Str(w.dep) in items[i..]
  {
  }

  /** Everything the second pass reports has a witness position. */
  lemma {:induction false} SecondPassSound(items: seq<Value>, i: nat, w: Issue)
    requires w in SecondPass(items, i)
    ensures w.CircularDependency?
    ensures exists j :: i <= j < |items| && items[j] == Str(w.agent) && IsAgent(w.agent) && w.dep in Deps(w.agent) && Str(w.dep) in items[j..]
    decreases |items| - i
  {
    SecondPassHere(items, i, w);
    var a := items[i];
    var here := if Known(a) then CircularIssues(a.s, DepsPresentIn(Deps(a.s), items[i..])) else [];
    if w !in here {
      SecondPassSound(items, i + 1, w);
    }
  }

  /** A witness position makes the second pass report the issue. */
  lemma {:induction false} SecondPassComplete(items: seq<Value>, i: nat, w: Issue, j: nat)
    requires w.CircularDependency? && i <= j < |items|
    requires items[j] == Str(w.agent) && IsAgent(w.agent) && w.dep in Deps(w.agent) && Str(w.dep) in items[j..]
    ensures w in SecondPass(items, i)
    decreases j - i
  {
    var a := items[i];
    var here := if Known(a) then CircularIssues(a.s, DepsPresentIn(Deps(a.s), items[i..])) else [];
    assert SecondPass(items, i) == here + SecondPass(items, i + 1);
    if j == i {
      SecondPassHere(items, i, w);
      assert w in here;
    } else {
      SecondPassComplete(items, i + 1, w, j);
    }
  }

  /** The second pass reports `a -> d` exactly when `a` is a known agent at some
      position and its dependency `d` occurs at or after that position. */
  lemma SecondPassErrors(items: seq<Value>, i: nat, w: Issue)
    ensures w in SecondPass(items, i) <==>
      w.CircularDependency? &&
      exists j :: i <= j < |items| && items[j] == Str(w.agent) && IsAgent(w.agent) && w.dep in Deps(w.agent) && Str(w.dep) in items[j..]
  {
    if w in SecondPass(items, i) {
      SecondPassSound(items, i, w);
    } else if w.CircularDependency? && exists j :: i <= j < |items| && items[j] == Str(w.agent) && IsAgent(w.agent) && w.dep in Deps(w.agent) && Str(w.dep) in items[j..] {
      var j :| i <= j < |items| && items[j] == Str(w.agent) && IsAgent(w.agent) && w.dep in Deps(w.agent) && Str(w.dep) in items[j..];
      SecondPassComplete(items, i, w, j);
    }
  }

  // ---------------------------------------------------------------------------
  // Plans whose execution sequence is a list of agent-id strings.

  /** A plan object whose `execution_sequence` is the list of strings `sequence`. */
  predicate HasStringSequence(plan: Value, sequence: seq<string>) {
    plan.Dict? && Find(plan.entries, "execution_sequence") == Some(StrList(sequence))
  }

  lemma StrListSlice(ss: seq<string>, lo: int, hi: int, d: string)
    requires 0 <= lo <= hi <= |ss|
    ensures Str(d) in StrList(ss).items[lo..hi] <==> d in ss[lo..hi]
  {
    var items := StrList(ss).items;
    if Str(d) in items[lo..hi] {
      var k :| lo <= k < hi && items[k] == Str(d);
      assert ss[lo..hi][k - lo] == d;
    }
    if d in ss[lo..hi] {
      var k :| lo <= k < hi && ss[k] == d;
      assert items[lo..hi][k - lo] == Str(d);
    }
  }

  lemma DepsOfUnknown(id: string)
    requires !IsAgent(id)
    ensures Deps(id) == []
  {
  }

  /** The report on such a plan: the missing-field error, then the two passes. */
  lemma StringPlanReport(plan: Value, sequence: seq<string>)
    requires HasStringSequence(plan, sequence)
    ensures FirstPass(StrList(sequence).items, 0).Some?
    ensures ValidateExecutionPlan(plan).Some?
    ensures var v := ValidateExecutionPlan(plan).value;
      v.errors == (if HasKey(plan.entries, "selected_agents") then [] else [MissingField("selected_agents")])
        + FirstPass(StrList(sequence).items, 0).value.errors + SecondPass(StrList(sequence).items, 0)
      && v.warnings == FirstPass(StrList(sequence).items, 0).value.warnings
      && v.isValid == (v.errors == [])
  {
    FirstPassDefined(StrList(sequence).items, 0);
  }

  lemma NoUnknownIff(sequence: seq<string>)
    requires FirstPass(StrList(sequence).items, 0).Some?
    ensures FirstPass(StrList(sequence).items, 0).value.errors == [] <==>
      forall i :: 0 <= i < |sequence| ==> IsAgent(sequence[i])
  {
    var items := StrList(sequence).items;
    var first := FirstPass(items, 0).value;
    if first.errors == [] {
      forall i | 0 <= i < |sequence| ensures IsAgent(sequence[i]) {
        if !IsAgent(sequence[i]) {
          FirstPassErrors(items, 0, UnknownAgent(items[i]));
          assert false;
        }
      }
    } else {
      FirstPassErrors(items, 0, first.errors[0]);
    }
  }

  lemma NoCircularIff(sequence: seq<string>)
    ensures SecondPass(StrList(sequence).items, 0) == [] <==>
      forall i, j :: 0 <= i <= j < |sequence| ==> sequence[j] !in Deps(sequence[i])
  {
    var items := StrList(sequence).items;
    var second := SecondPass(items, 0);
    if second == [] {
      forall i, j | 0 <= i <= j < |sequence| ensures sequence[j] !in Deps(sequence[i]) {
        if sequence[j] in Deps(sequence[i]) {
          var a, d := sequence[i], sequence[j];
          assert IsAgent(a);
          StrListSlice(sequence, i, |sequence|, d);
          assert sequence[i..][j - i] == d;
          SecondPassErrors(items, 0, CircularDependency(a, d));
          assert false;
        }
      }
    } else {
      var w := second[0];
      SecondPassErrors(items, 0, w);
      var j :| 0 <= j < |items| && items[j] == Str(w.agent) && IsAgent(w.agent) && w.dep in Deps(w.agent) && Str(w.dep) in items[j..];
      StrListSlice(sequence, j, |sequence|, w.dep);
      var k :| j <= k < |sequence| && sequence[k] == w.dep;
      assert sequence[j] == w.agent;
    }
  }

  /** `validate_execution_plan` never raises on such a plan, and it marks the plan
      valid exactly when `selected_agents` is present, every id is a registry
      agent, and no agent has one of its dependencies at or after its own
      position. */
  lemma ValidIff(plan: Value, sequence: seq<string>)
    requires HasStringSequence(plan, sequence)
    ensures ValidateExecutionPlan(plan).Some?
    ensures ValidateExecutionPlan(plan).value.isValid <==>
      HasKey(plan.entries, "selected_agents")
      && (forall i :: 0 <= i < |sequence| ==> IsAgent(sequence[i]))
      && (forall i, j :: 0 <= i <= j < |sequence| ==> sequence[j] !in Deps(sequence[i]))
  {
    StringPlanReport(plan, sequence);
    NoUnknownIff(sequence);
    NoCircularIff(sequence);
  }

  /** The warnings on such a plan: one for each known agent and each of its
      dependencies that is not scheduled before it. Warnings never decide validity. */
  lemma WarningsIff(plan: Value, sequence: seq<string>, a: string, d: string)
    requires HasStringSequence(plan, sequence)
    ensures ValidateExecutionPlan(plan).Some?
    ensures NotExecutedBefore(a, d) in ValidateExecutionPlan(plan).value.warnings <==>
      exists i :: 0 <= i < |sequence| && sequence[i] == a && IsAgent(a) && d in Deps(a) && d !in sequence[..i]
  {
    var items := StrList(sequence).items;
    FirstPassDefined(items, 0);
    FirstPassWarnings(items, 0, NotExecutedBefore(a, d));
    forall i | 0 <= i < |sequence| ensures Str(d) in items[..i] <==> d in sequence[..i] {
      StrListSlice(sequence, 0, i, d);
      assert items[0..i] == items[..i];
      assert sequence[0..i] == sequence[..i];
    }
  }

  /** A dependency scheduled at or after its dependent is an error and makes the
      plan invalid, whether or not it also occurs earlier. */
  lemma LateDependencyIsError(plan: Value, sequence: seq<string>, i: int, k: int)
    requires HasStringSequence(plan, sequence)
    requires 0 <= i <= k < |sequence| && sequence[k] in Deps(sequence[i])
    ensures ValidateExecutionPlan(plan).Some?
    ensures CircularDependency(sequence[i], sequence[k]) in ValidateExecutionPlan(plan).value.errors
    ensures !ValidateExecutionPlan(plan).value.isValid
  {
    StringPlanReport(plan, sequence);
    var items := StrList(sequence).items;
    StrListSlice(sequence, i, |sequence|, sequence[k]);
    assert sequence[i..][k - i] == sequence[k];
    SecondPassErrors(items, 0, CircularDependency(sequence[i], sequence[k]));
  }

  /** A dependency missing from the sequence altogether is a warning for every
      agent that needs it, and never an error. */
  lemma AbsentDependencyIsWarningOnly(plan: Value, sequence: seq<string>, i: int, d: string)
    requires HasStringSequence(plan, sequence)
    requires 0 <= i < |sequence| && IsAgent(sequence[i]) && d in Deps(sequence[i]) && d !in sequence
    ensures ValidateExecutionPlan(plan).Some?
    ensures NotExecutedBefore(sequence[i], d) in ValidateExecutionPlan(plan).value.warnings
    ensures forall a :: CircularDependency(a, d) !in ValidateExecutionPlan(plan).value.errors
  {
    StringPlanReport(plan, sequence);
    WarningsIff(plan, sequence, sequence[i], d);
    assert d !in sequence[..i];
    var items := StrList(sequence).items;
    forall a ensures CircularDependency(a, d) !in ValidateExecutionPlan(plan).value.errors {
      FirstPassErrors(items, 0, CircularDependency(a, d));
      SecondPassErrors(items, 0, CircularDependency(a, d));
    }
  }

  /** Every dependency of every agent is scheduled strictly before it, and every id
      is a registry agent. */
  predicate DependencyOrdered(sequence: seq<string>) {
    (forall i :: 0 <= i < |sequence| ==> IsAgent(sequence[i]))
    && (forall i, d :: 0 <= i < |sequence| && d in Deps(sequence[i]) ==> d in sequence[..i])
    && (forall i, j :: 0 <= i <= j < |sequence| ==> sequence[j] !in Deps(sequence[i]))
  }

  /** A plan with `selected_agents` whose sequence respects the dependency order
      validates with no error and no warning. */
  lemma OrderedPlanClean(plan: Value, sequence: seq<string>)
    requires HasStringSequence(plan, sequence) && HasKey(plan.entries, "selected_agents")
    requires DependencyOrdered(sequence)
    ensures ValidateExecutionPlan(plan) == Some(Validation(true, [], [], []))
  {
    ValidIff(plan, sequence);
    StringPlanReport(plan, sequence);
    var v := ValidateExecutionPlan(plan).value;
    if v.warnings != [] {
      var w := v.warnings[0];
      FirstPassWarnings(StrList(sequence).items, 0, w);
      WarningsIff(plan, sequence, w.agent, w.dep);
    }
  }

  // ---------------------------------------------------------------------------
  // The rule-based planner.

  const FullSequence: seq<string> := [Extractor, BriefGenerator, Normalizer]
  const ShortSequence: seq<string> := [Extractor, Normalizer]
  const SimilarSequence: seq<string> := [Extractor, Retriever, Comparator]

  /** The keyword table on the lower-cased request, first match wins; `None` when
      no keyword occurs. */
  function KeywordSequence(request: string): Option<seq<string>> {
    var r := PyText.Lower(request);
    if PyText.Contains(r, "brief") || PyText.Contains(r, "summary") then Some(FullSequence)
    else if PyText.Contains(r, "extract") || PyText.Contains(r, "analyze") then Some(ShortSequence)
    else if PyText.Contains(r, "citation") then Some(ShortSequence)
    else if PyText.Contains(r, "similar") || PyText.Contains(r, "precedent") then Some(SimilarSequence)
    else None
  }

  /** `preferences.get('general', {}).get('auto_generate_brief', False)` as a truth
      value; `None` when one of the two is not a dict. */
  function AutoGenerateBrief(preferences: Value): Option<bool> {
    var general :- Get(preferences, "general", Dict([]));
    var flag :- Get(general, "auto_generate_brief", Bool(false));
    Some(Truthy(flag))
  }

  /** The sequence `_get_rule_based_plan` picks: the keyword table, else the full
      sequence when `auto_generate_brief` is set and the short one otherwise. The
      preference is read only when no keyword matched. */
  function RuleSequence(request: string, preferences: Value): Option<seq<string>> {
    match KeywordSequence(request)
    case Some(sequence) => Some(sequence)
    case None =>
      var auto :- AutoGenerateBrief(preferences);
      Some(if auto then FullSequence else ShortSequence)
  }

  lemma FullSequenceOrdered()
    ensures DependencyOrdered(FullSequence)
  {
    DependencyShape();
    var q := FullSequence;
    assert q[..0] == [] && q[..1] == [Extractor] && q[..2] == [Extractor, BriefGenerator];
    forall i, d | 0 <= i < |q| && d in Deps(q[i]) ensures d in q[..i] {
      assert i != 0;
    }
  }

  lemma ShortSequenceOrdered()
    ensures DependencyOrdered(ShortSequence)
  {
    DependencyShape();
    var q := ShortSequence;
    assert q[..0] == [] && q[..1] == [Extractor];
    forall i, d | 0 <= i < |q| && d in Deps(q[i]) ensures d in q[..i] {
      assert i != 0;
    }
  }

  lemma SimilarSequenceOrdered()
    ensures DependencyOrdered(SimilarSequence)
  {
    DependencyShape();
    var q := SimilarSequence;
    assert q[..0] == [] && q[..1] == [Extractor] && q[..2] == [Extractor, Retriever];
    forall i, d | 0 <= i < |q| && d in Deps(q[i]) ensures d in q[..i] {
      assert i != 0;
    }
  }

  /** The planner only ever picks one of the three dependency-ordered sequences. */
  lemma RuleSequenceOrdered(request: string, preferences: Value)
    ensures RuleSequence(request, preferences).Some? ==>
      RuleSequence(request, preferences).value in {FullSequence, ShortSequence, SimilarSequence}
      && DependencyOrdered(RuleSequence(request, preferences).value)
  {
    FullSequenceOrdered();
    ShortSequenceOrdered();
    SimilarSequenceOrdered();
  }

  /** One entry of `selected_agents`: id, reason, 1-based priority and the
      registry's inputs and outputs. */
  function SelectedAgent(agent: string, reason: string, priority: int): Value
    requires IsAgent(agent)
  {
    var spec := GetAgentInfo(agent).value;
    Dict([
      ("agent_id", Str(agent)),
      ("reason", Str(reason)),
      ("priority", Int(priority)),
      ("required_inputs", StrList(spec.inputRequired)),
      ("expected_outputs", StrList(spec.outputProvides))])
  }

  /** The fixed conditional rules both planners attach. */
  const DefaultConditionalLogic: Value := Dict([
    ("if_extraction_fails", Str("skip_all_subsequent")),
    ("if_no_citations", Str("skip_citation_normalization"))])

  /** The five fields of a plan object, in the order both planners write them. */
  function PlanObject(analysis: Value, agents: Value, sequence: Value, logic: Value, confidence: Value): (plan: Value)
    ensures plan.Dict?
    ensures Find(plan.entries, "selected_agents") == Some(agents)
    ensures Find(plan.entries, "execution_sequence") == Some(sequence)
    ensures Find(plan.entries, "conditional_logic") == Some(logic)
    ensures Find(plan.entries, "confidence") == Some(confidence)
  {
    var e4 := [("confidence", confidence)];
    var e3 := [("conditional_logic", logic)] + e4;
    var e2 := [("execution_sequence", sequence)] + e3;
    var e1 := [("selected_agents", agents)] + e2;
    var e0 := [("analysis", analysis)] + e1;
    FindCons("analysis", analysis, e1, "selected_agents");
    FindCons("selected_agents", agents, e2, "selected_agents");
    FindCons("analysis", analysis, e1, "execution_sequence");
    FindCons("selected_agents", agents, e2, "execution_sequence");
    FindCons("execution_sequence", sequence, e3, "execution_sequence");
    FindCons("analysis", analysis, e1, "conditional_logic");
    FindCons("selected_agents", agents, e2, "conditional_logic");
    FindCons("execution_sequence", sequence, e3, "conditional_logic");
    FindCons("conditional_logic", logic, e4, "conditional_logic");
    FindCons("analysis", analysis, e1, "confidence");
    FindCons("selected_agents", agents, e2, "confidence");
    FindCons("execution_sequence", sequence, e3, "confidence");
    FindCons("conditional_logic", logic, e4, "confidence");
    Dict(e0)
  }

  /** The entries of `selected_agents`, priority counted from 1. */
  function SelectedAgents(reason: string -> string, sequence: seq<string>): (v: Value)
    requires forall i :: 0 <= i < |sequence| ==> IsAgent(sequence[i])
    ensures v.List? && |v.items| == |sequence|
    ensures forall i :: 0 <= i < |sequence| ==> v.items[i] == SelectedAgent(sequence[i], reason(sequence[i]), i + 1)
  {
    List(seq(|sequence|, i requires 0 <= i < |sequence| => SelectedAgent(sequence[i], reason(sequence[i]), i + 1)))
  }

  /** The plan object both planners build; `reason(agent)` is each entry's reason. */
  function BuildPlan(analysis: string, reason: string -> string, sequence: seq<string>): (plan: Value)
    requires forall i :: 0 <= i < |sequence| ==> IsAgent(sequence[i])
    ensures HasStringSequence(plan, sequence) && HasKey(plan.entries, "selected_agents")
    ensures Find(plan.entries, "selected_agents") == Some(SelectedAgents(reason, sequence))
    ensures Find(plan.entries, "conditional_logic") == Some(DefaultConditionalLogic)
    ensures Find(plan.entries, "confidence") == Some(Real(0.7))
  {
    PlanObject(Str(analysis), SelectedAgents(reason, sequence), StrList(sequence), DefaultConditionalLogic, Real(0.7))
  }

  /** What a planning step returns: a plan with its validation report and the tag of
      what produced it, or a failure. `stage` names the failing step
      ("Decision-making failed" or "Rule-based planning failed"). */
  datatype PlanOutcome =
    | Planned(plan: Value, validation: Validation, modelUsed: string)
    | PlanFailed(stage: string)

  function RuleReason(agent: string): string {
    "Required for " + agent + " based on request pattern"
  }

  /** `_get_rule_based_plan(user_request, context)`. */
  function RuleBasedPlan(request: string, context: Value): PlanOutcome {
    match Get(context, "preferences", Dict([]))
    case None => PlanFailed("Rule-based planning failed")
    case Some(preferences) =>
      match RuleSequence(request, preferences)
      case None => PlanFailed("Rule-based planning failed")
      case Some(sequence) =>
        RuleSequenceOrdered(request, preferences);
        var plan := BuildPlan("Rule-based orchestration for: " + PyText.Take(request, 100) + "...", RuleReason, sequence);
        match ValidateExecutionPlan(plan)
        case None => PlanFailed("Rule-based planning failed")
        case Some(validation) => Planned(plan, validation, "rule-based")
  }

  /** Every rule-based plan is one of the three canonical sequences and validates
      with no error and no warning; the planner fails only when the context is not
      a dict, or when no keyword matched and the preferences' `general` section
      cannot be read. */
  lemma RuleBasedPlanClean(request: string, context: Value)
    ensures var r := RuleBasedPlan(request, context);
      r.Planned? ==>
        var sequence := RuleSequence(request, Get(context, "preferences", Dict([])).value).value;
        r.validation == Validation(true, [], [], []) && r.modelUsed == "rule-based"
        && sequence in {FullSequence, ShortSequence, SimilarSequence} && HasStringSequence(r.plan, sequence)
        && Find(r.plan.entries, "confidence") == Some(Real(0.7))
    ensures RuleBasedPlan(request, context).PlanFailed? <==>
      !context.Dict?
      || (KeywordSequence(request).None? && AutoGenerateBrief(Get(context, "preferences", Dict([])).value).None?)
  {
    var r := RuleBasedPlan(request, context);
    if context.Dict? {
      var preferences := Get(context, "preferences", Dict([])).value;
      RuleSequenceOrdered(request, preferences);
      if RuleSequence(request, preferences).Some? {
        var sequence := RuleSequence(request, preferences).value;
        var plan := BuildPlan("Rule-based orchestration for: " + PyText.Take(request, 100) + "...", RuleReason, sequence);
        OrderedPlanClean(plan, sequence);
      }
    }
  }

  /** When the request names a keyword, the preferences play no part. */
  lemma KeywordOverridesPreferences(request: string, p1: Value, p2: Value)
    requires KeywordSequence(request).Some?
    ensures RuleSequence(request, p1) == RuleSequence(request, p2) == KeywordSequence(request)
  {
  }

  // ---------------------------------------------------------------------------
  // The conditional-skip rule.

  /** Whether the recorded extractor result counts as failed for the skip-all
      rule: it is recorded and its `success` is falsy or missing. */
  function ExtractorFailed(results: Value): Option<bool> {
    var recorded :- Has(results, Extractor);
    if !recorded then Some(false)
    else
      var result :- Index(results, Extractor);
      var success :- Get(result, "success", Bool(false));
      Some(!Truthy(success))
  }

  /** Whether the extractor's recorded citations are empty or absent. */
  function NoCitations(results: Value): Option<bool> {
    var result :- Get(results, Extractor, Dict([]));
    var data :- Get(result, "data", Dict([]));
    var citations :- Get(data, "citations", List([]));
    if !Truthy(citations) then Some(true)
    else
      var n :- PyLen(citations);
      Some(n == 0)
  }

  /** `should_execute_agent(agent_id, plan, execution_results)`; `None` where the
      Python code raises. */
  function ShouldExecuteAgent(agent: string, plan: Value, results: Value): Option<bool> {
    var logic :- Get(plan, "conditional_logic", Dict([]));
    var onFailure :- Get(logic, "if_extraction_fails", Null);
    var failed :- if onFailure == Str("skip_all_subsequent") then ExtractorFailed(results) else Some(false);
    if failed then Some(false)
    else if agent != Normalizer then Some(true)
    else
      var onNoCitations :- Get(logic, "if_no_citations", Null);
      if onNoCitations != Str("skip_citation_normalization") then Some(true)
      else
        var none :- NoCitations(results);
        Some(!none)
  }

  /** Results recorded as the orchestration loop records them: a dict whose
      extractor entry, when present, is a dict whose `data`, when present, is a dict
      whose `citations`, when present, is falsy or else a string, list or dict. */
  predicate WellShapedResults(results: Value) {
    results.Dict?
    && (var ext := Find(results.entries, Extractor).GetOr(Dict([]));
        ext.Dict?
        && (var data := Find(ext.entries, "data").GetOr(Dict([]));
            data.Dict?
            && (var c := Find(data.entries, "citations").GetOr(List([]));
                c.Str? || c.List? || c.Dict? || !Truthy(c))))
  }

  /** Plans whose `conditional_logic`, when present, is a dict. */
  predicate WellShapedPlan(plan: Value) {
    plan.Dict? && Find(plan.entries, "conditional_logic").GetOr(Dict([])).Dict?
  }

  function Logic(plan: Value): Entries
    requires WellShapedPlan(plan)
  {
    Find(plan.entries, "conditional_logic").GetOr(Dict([])).entries
  }

  function Citations(results: Value): Value
    requires WellShapedResults(results)
  {
    var ext := Find(results.entries, Extractor).GetOr(Dict([]));
    var data := Find(ext.entries, "data").GetOr(Dict([]));
    Find(data.entries, "citations").GetOr(List([]))
  }

  /** On well-shaped inputs the rule never raises, and an agent is skipped exactly
      when the skip-all rule is on and the extractor is recorded without a truthy
      `success`, or the agent is the citation normalizer, the no-citations rule is
      on and the extractor's citations are empty or absent. */
  lemma ShouldExecuteIff(agent: string, plan: Value, results: Value)
    requires WellShapedPlan(plan) && WellShapedResults(results)
    ensures ShouldExecuteAgent(agent, plan, results).Some?
    ensures ShouldExecuteAgent(agent, plan, results) == Some(false) <==>
      (Find(Logic(plan), "if_extraction_fails") == Some(Str("skip_all_subsequent"))
        && HasKey(results.entries, Extractor)
        && !Truthy(Find(Find(results.entries, Extractor).value.entries, "success").GetOr(Bool(false))))
      || (agent == Normalizer
        && Find(Logic(plan), "if_no_citations") == Some(Str("skip_citation_normalization"))
        && !Truthy(Citations(results)))
  {
  }

  // ---------------------------------------------------------------------------
  // A driver loop a caller would write, not a function of the source: the loop
  // over a plan's sequence, asking `should_execute_agent` before each agent and
  // recording each result under the agent's id.

  datatype Trace = Trace(executed: seq<string>, results: Entries)

  function RunSequence(plan: Value, agents: seq<string>, run: (string, Entries) -> Value, results: Entries): Option<Trace>
  {
    if agents == [] then Some(Trace([], results))
    else
      var go :- ShouldExecuteAgent(agents[0], plan, Dict(results));
      var results' := if go then Put(results, agents[0], run(agents[0], results)) else results;
      var rest :- RunSequence(plan, agents[1..], run, results');
      Some(Trace((if go then [agents[0]] else []) + rest.executed, rest.results))
  }

  /** Once the extractor is recorded as failed under the skip-all rule, nothing
      further runs and the recorded results stay as they are. */
  lemma {:induction false} ExtractorFailureStopsRun(plan: Value, agents: seq<string>, run: (string, Entries) -> Value, results: Entries)
    requires WellShapedPlan(plan) && WellShapedResults(Dict(results))
    requires Find(Logic(plan), "if_extraction_fails") == Some(Str("skip_all_subsequent"))
    requires HasKey(results, Extractor)
    requires !Truthy(Find(Find(results, Extractor).value.entries, "success").GetOr(Bool(false)))
    ensures RunSequence(plan, agents, run, results) == Some(Trace([], results))
  {
    if agents != [] {
      ShouldExecuteIff(agents[0], plan, Dict(results));
      ExtractorFailureStopsRun(plan, agents[1..], run, results);
      var none: seq<string> := [];
      assert none + none == none;
    }
  }

  // ---------------------------------------------------------------------------
  // The planning step.

  /** How the call to the model came back: it raised, or it returned a result. */
  datatype LlmCall = CallRaised(message: string) | CallReturned(result: PerceptionLayer.LlmResult)

  /** `preferences.get('llm', {}).get('primary_model', 'gemini')`; `None` when one of
      them is not a dict. */
  function PreferredModel(preferences: Value): Option<Value> {
    var llm :- Get(preferences, "llm", Dict([]));
    Get(llm, "primary_model", Str("gemini"))
  }

  /** `decide_execution_plan(user_request, context)`, given how the model call for
      the preferred model comes back (`call`) and how its answer text parses
      (`parse`, the perception layer's `parse_json_response`). A falsy context is
      replaced by the session context; the preferences are stored into it; a failed
      call or an unusable answer falls back to the rule-based planner; any other
      exception is a failure. A plan from the model is returned whatever its
      validation says. */
  function DecideExecutionPlan(request: string, context: Value, session: Entries, preferences: Value,
                               call: Value -> LlmCall, parse: string -> Option<Value>): (r: PlanOutcome)
    ensures r.Planned? && r.modelUsed != "rule-based" ==> ValidateExecutionPlan(r.plan) == Some(r.validation)
  {
    var ctx := if Truthy(context) then context else Dict(session);
    if !ctx.Dict? then PlanFailed("Decision-making failed")
    else
      var withPreferences := Dict(Put(ctx.entries, "preferences", preferences));
      match PreferredModel(preferences)
      case None => PlanFailed("Decision-making failed")
      case Some(preferred) =>
        match call(preferred)
        case CallRaised(_) => PlanFailed("Decision-making failed")
        case CallReturned(result) =>
          if result.LlmErr? then RuleBasedPlan(request, withPreferences)
          else
          match parse(result.response)
          case None => RuleBasedPlan(request, withPreferences)
          case Some(plan) =>
            if !Truthy(plan) then RuleBasedPlan(request, withPreferences)
            else
              match ValidateExecutionPlan(plan)
              case None => PlanFailed("Decision-making failed")
              case Some(validation) => Planned(plan, validation, result.modelUsed)
  }

  /** The model call as the source writes it: `process_with_llm` is passed a
      `detail_level` keyword it does not accept, so the call raises `TypeError`
      before any backend is tried. */
  function CallAsWritten(preferred: Value): LlmCall {
    CallRaised("process_with_llm() got an unexpected keyword argument 'detail_level'")
  }

  /** The model call as intended: `process_with_llm` with the preferred model and
      its default of two retries per backend. */
  function CallCorrected(cfg: PerceptionLayer.ModelConfig, live: PerceptionLayer.Liveness,
                         gemini: nat -> PerceptionLayer.GeminiReply, ollama: nat -> PerceptionLayer.OllamaReply): Value -> LlmCall
  {
    (preferred: Value) => CallReturned(PerceptionLayer.ProcessWithLlm(preferred, cfg, live, gemini, ollama, 2).result)
  }

  /** As written, planning never produces a plan: the rule-based fallback is
      unreachable and every request fails. */
  lemma DecideAsWrittenAlwaysFails(request: string, context: Value, session: Entries, preferences: Value, parse: string -> Option<Value>)
    ensures DecideExecutionPlan(request, context, session, preferences, CallAsWritten, parse).PlanFailed?
  {
  }

  /** When the model call returns an error, planning is exactly the rule-based
      planner on the context with the preferences stored. */
  lemma DecideOnModelError(request: string, context: Value, session: Entries, preferences: Value,
                           call: Value -> LlmCall, parse: string -> Option<Value>)
    requires Truthy(context) ==> context.Dict?
    requires PreferredModel(preferences).Some?
    requires call(PreferredModel(preferences).value).CallReturned?
    requires call(PreferredModel(preferences).value).result.LlmErr?
    ensures var ctx := if Truthy(context) then context else Dict(session);
      DecideExecutionPlan(request, context, session, preferences, call, parse)
        == RuleBasedPlan(request, Dict(Put(ctx.entries, "preferences", preferences)))
  {
  }

  /** When the model answers, its reply decides the plan: a reply that does not
      parse, or parses to a falsy value, falls back to the rule-based planner; a
      truthy parsed plan is returned as it stands, tagged with the model that
      answered, together with its validation, whether or not that validation
      passed; a plan whose validation raises fails the decision. */
  lemma DecideOnModelReply(request: string, context: Value, session: Entries, preferences: Value,
                           call: Value -> LlmCall, parse: string -> Option<Value>, response: string, tag: string)
    requires Truthy(context) ==> context.Dict?
    requires PreferredModel(preferences).Some?
    requires call(PreferredModel(preferences).value) == CallReturned(PerceptionLayer.LlmOk(response, tag))
    ensures var ctx := if Truthy(context) then context else Dict(session);
      parse(response).None? || !Truthy(parse(response).value) ==>
        DecideExecutionPlan(request, context, session, preferences, call, parse)
          == RuleBasedPlan(request, Dict(Put(ctx.entries, "preferences", preferences)))
    ensures parse(response).Some? && Truthy(parse(response).value) ==>
      var plan := parse(response).value;
      DecideExecutionPlan(request, context, session, preferences, call, parse)
        == if ValidateExecutionPlan(plan).Some? then Planned(plan, ValidateExecutionPlan(plan).value, tag)
           else PlanFailed("Decision-making failed")
  {
  }

  /** With the call corrected and no backend live, planning is the rule-based
      planner on the context with the preferences stored, so any plan it returns
      is canonical and validates clean. */
  lemma DecideCorrectedWithoutModels(request: string, context: Value, session: Entries, preferences: Value,
                                     cfg: PerceptionLayer.ModelConfig, gemini: nat -> PerceptionLayer.GeminiReply,
                                     ollama: nat -> PerceptionLayer.OllamaReply, parse: string -> Option<Value>)
    requires Truthy(context) ==> context.Dict?
    requires PreferredModel(preferences).Some?
    ensures var ctx := if Truthy(context) then context else Dict(session);
      DecideExecutionPlan(request, context, session, preferences,
                          CallCorrected(cfg, PerceptionLayer.Liveness(false, false), gemini, ollama), parse)
        == RuleBasedPlan(request, Dict(Put(ctx.entries, "preferences", preferences)))
    ensures var r := DecideExecutionPlan(request, context, session, preferences,
                                         CallCorrected(cfg, PerceptionLayer.Liveness(false, false), gemini, ollama), parse);
      r.Planned? ==> r.validation == Validation(true, [], [], [])
  {
    var preferred := PreferredModel(preferences).value;
    var call := CallCorrected(cfg, PerceptionLayer.Liveness(false, false), gemini, ollama);
    PerceptionLayer.NothingLive(preferred, cfg, gemini, ollama, 2);
    assert call(preferred).result.LlmErr?;
    DecideOnModelError(request, context, session, preferences, call, parse);
    var ctx := if Truthy(context) then context else Dict(session);
    RuleBasedPlanClean(request, Dict(Put(ctx.entries, "preferences", preferences)));
  }
}
