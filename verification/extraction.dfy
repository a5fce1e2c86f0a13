/** What the action layer (server/layers/action_layer.py) and the extractor agent
    (server/agents/legal_extractor.py) both do with a document and with the fields
    a model extracts from it: the length guard, truncation, the completeness
    score, and the coercion of list and string fields. The two files carry copies
    of the same code; it is defined once here. */
module Extraction {
  import opened Wrappers
  import opened Values
  import PyText

  const MinDocumentLength := 100
  const MaxDocumentLength := 50000
  const TruncationMarker := "... [truncated]"

  /** `not document_text or len(document_text.strip()) < 100` */
  predicate TooShort(text: string) {
    text == [] || |PyText.Strip(text)| < MinDocumentLength
  }

  /** A document passes the guard exactly when it has at least 100 non-blank
      characters between its first and last non-blank one. */
  lemma TooShortIff(text: string)
    ensures !TooShort(text) <==> |PyText.Strip(text)| >= MinDocumentLength
  {
    if text == [] {
      assert PyText.Strip(text) == [];
    }
  }

  /** `text[:50000] + "... [truncated]"` when the text is longer than 50000. */
  function Truncate(text: string): (r: string)
    ensures |r| <= MaxDocumentLength + |TruncationMarker|
    ensures |text| <= MaxDocumentLength ==> r == text
    ensures |text| > MaxDocumentLength ==>
      |r| == MaxDocumentLength + |TruncationMarker| && r[..MaxDocumentLength] == text[..MaxDocumentLength]
      && r[MaxDocumentLength..] == TruncationMarker
  {
    if |text| > MaxDocumentLength then text[..MaxDocumentLength] + TruncationMarker else text
  }

  /** Truncating twice is truncating once: a truncated text is cut at the same
      place and gets the same marker back. */
  lemma TruncateIdempotent(text: string)
    ensures Truncate(Truncate(text)) == Truncate(text)
  {
    var r := Truncate(text);
    if |text| > MaxDocumentLength {
      assert r[..MaxDocumentLength] + TruncationMarker == r;
    }
  }

  // ---------------------------------------------------------------------------
  // The completeness score.

  /** The fields whose presence the confidence score counts. */
  const ScoredFields: seq<string> := ["case_name", "court", "date", "facts", "legal_issues", "holdings", "reasoning"]

  /** One field of the score: `value and value != "Not found" and value != "" and
      value != []`, and then a non-empty list or a string that is not blank. */
  predicate Found(value: Option<Value>) {
    value.Some? && Truthy(value.value) && value.value != Str("Not found") && value.value != Str("")
    && value.value != List([])
    && ((value.value.List? && |value.value.items| > 0) || (value.value.Str? && |PyText.Strip(value.value.s)| > 0))
  }

  /** A field counts exactly when it is a non-empty list, or a string other than
      "Not found" that is not all blanks. */
  lemma FoundIff(value: Option<Value>)
    ensures Found(value) <==>
      value.Some? &&
      ((value.value.List? && value.value.items != [])
       || (value.value.Str? && value.value.s != "Not found" && PyText.Strip(value.value.s) != []))
  {
    if value.Some? && value.value.Str? && PyText.Strip(value.value.s) != [] {
      assert value.value.s != [];
    }
  }

  /** How many of `fields` are found in the dict. */
  function FoundCount(data: Entries, fields: seq<string>): (n: nat)
    ensures n <= |fields|
    ensures n == 0 <==> forall i :: 0 <= i < |fields| ==> !Found(Find(data, fields[i]))
    ensures n == |fields| <==> forall i :: 0 <= i < |fields| ==> Found(Find(data, fields[i]))
  {
    if fields == [] then 0
    else
      var rest := FoundCount(data, fields[1..]);
      assert forall i :: 1 <= i < |fields| ==> fields[i] == fields[1..][i - 1];
      (if Found(Find(data, fields[0])) then 1 else 0) + rest
  }

  /** `_calculate_extraction_confidence` / `_calculate_confidence`: found fields over
      seven, plus 0.1 for citations and 0.1 for a case number other than
      "Not found", capped at 1.0. `None` where Python raises: `len()` of truthy
      citations that have no length. */
  function Confidence(data: Entries): (r: Option<real>)
    ensures r.None? <==> Find(data, "citations").Some? && Truthy(Find(data, "citations").value)
                         && PyLen(Find(data, "citations").value).None?
    ensures r.Some? ==> 0.0 <= r.value <= 1.0
    ensures r.Some? && FoundCount(data, ScoredFields) == |ScoredFields| ==> r.value == 1.0
  {
    var base := FoundCount(data, ScoredFields) as real / |ScoredFields| as real;
    var citations := Find(data, "citations").GetOr(List([]));
    if Truthy(citations) && PyLen(citations).None? then None
    else
      var withCitations := if Truthy(citations) && PyLen(citations).value > 0 then base + 0.1 else base;
      var caseNumber := Find(data, "case_number").GetOr(Null);
      var withNumber := if Truthy(caseNumber) && caseNumber != Str("Not found") then withCitations + 0.1 else withCitations;
      Some(if withNumber < 1.0 then withNumber else 1.0)
  }

  /** The score is zero exactly when nothing counts: no scored field found, no
      citations and no case number. */
  lemma ConfidenceZeroIff(data: Entries)
    requires Confidence(data).Some?
    ensures Confidence(data).value == 0.0 <==>
      FoundCount(data, ScoredFields) == 0
      && !Truthy(Find(data, "citations").GetOr(List([])))
      && !(Truthy(Find(data, "case_number").GetOr(Null)) && Find(data, "case_number").GetOr(Null) != Str("Not found"))
  {
    var citations := Find(data, "citations").GetOr(List([]));
    if Truthy(citations) {
      assert PyLen(citations).value > 0;
    }
  }

  // ---------------------------------------------------------------------------
  // Coercing fields to lists and strings.

  /** A list field that is not a list: `[str(v)]` when truthy, else `[]`. */
  function CoerceList(v: Value, show: Value -> string): (r: Value)
    ensures r.List?
    ensures v.List? ==> r == v
    ensures !v.List? && Truthy(v) ==> r == List([Str(AsText(v, show))])
    ensures !v.List? && !Truthy(v) ==> r == List([])
  {
    if v.List? then v else if Truthy(v) then List([Str(AsText(v, show))]) else List([])
  }

  /** A string field that is not a string: `str(v)` when truthy, else `fallback`. */
  function CoerceString(v: Value, show: Value -> string, fallback: string): (r: Value)
    ensures r.Str?
    ensures v.Str? ==> r == v
    ensures !v.Str? && Truthy(v) ==> r == Str(AsText(v, show))
    ensures !v.Str? && !Truthy(v) ==> r == Str(fallback)
  {
    if v.Str? then v else if Truthy(v) then Str(AsText(v, show)) else Str(fallback)
  }

  /** Coercion is idempotent. */
  lemma CoerceIdempotent(v: Value, show: Value -> string, fallback: string)
    ensures CoerceList(CoerceList(v, show), show) == CoerceList(v, show)
    ensures CoerceString(CoerceString(v, show, fallback), show, fallback) == CoerceString(v, show, fallback)
  {
  }

  /** How a field is coerced. */
  datatype Coercion = ToList | ToString(fallback: string)

  function Coerce(c: Coercion, v: Value, show: Value -> string): Value {
    match c
    case ToList => CoerceList(v, show)
    case ToString(fallback) => CoerceString(v, show, fallback)
  }

  /** The loop `for field in fields: if field in d: d[field] = coerce(d[field])`. */
  function CoerceFields(data: Entries, fields: seq<string>, c: Coercion, show: Value -> string): (r: Entries)
    ensures Keys(r) == Keys(data)
    decreases |fields|
  {
    if fields == [] then data
    else
      var next := match Find(data, fields[0])
        case None => data
        case Some(v) => Put(data, fields[0], Coerce(c, v, show));
      assert Keys(next) == Keys(data) by {
        if Find(data, fields[0]).Some? {
          PutExistingKeys(data, fields[0], Coerce(c, Find(data, fields[0]).value, show));
        }
      }
      CoerceFields(next, fields[1..], c, show)
  }

  /** What the loop leaves under each key: a listed field that is present is
      coerced (coercion is idempotent, so listing it twice changes nothing); an
      absent field stays absent; every other key keeps its value. */
  lemma {:induction false} CoerceFieldsFind(data: Entries, fields: seq<string>, c: Coercion, show: Value -> string, k: string)
    ensures Find(CoerceFields(data, fields, c, show), k) ==
      if k in fields && Find(data, k).Some? then Some(Coerce(c, Find(data, k).value, show)) else Find(data, k)
    decreases |fields|
  {
    if fields != [] {
      var f := fields[0];
      var next := match Find(data, f)
        case None => data
        case Some(v) => Put(data, f, Coerce(c, v, show));
      CoerceFieldsFind(next, fields[1..], c, show, k);
      if Find(data, f).Some? {
        if k != f {
          FindPutOther(data, f, Coerce(c, Find(data, f).value, show), k);
        } else {
          CoerceIdempotent(Find(data, f).value, show, if c.ToString? then c.fallback else "");
        }
      }
    }
  }

  /** The coercion leaves the value under `k` as it is (or `k` is absent). */
  predicate Settled(data: Entries, k: string, c: Coercion, show: Value -> string) {
    Find(data, k).Some? ==> Coerce(c, Find(data, k).value, show) == Find(data, k).value
  }

  /** When every listed field is already settled the loop changes nothing. */
  lemma {:induction false} CoerceFieldsNoop(data: Entries, fields: seq<string>, c: Coercion, show: Value -> string)
    requires forall k :: k in fields ==> Settled(data, k, c, show)
    ensures CoerceFields(data, fields, c, show) == data
    decreases |fields|
  {
    if fields != [] {
      assert Settled(data, fields[0], c, show);
      if Find(data, fields[0]).Some? {
        PutSame(data, fields[0], Find(data, fields[0]).value);
      }
      CoerceFieldsNoop(data, fields[1..], c, show);
    }
  }

  /** The list fields of the action layer; the extractor agent's list omits
      `judges`. */
  const ActionListFields: seq<string> := ["facts", "legal_issues", "holdings", "reasoning", "citations", "judges"]
  const ActionStringFields: seq<string> := ["case_name", "court", "date", "disposition", "case_number"]
  const AgentListFields: seq<string> := ["facts", "legal_issues", "holdings", "reasoning", "citations"]
  const AgentStringFields: seq<string> := ["case_name", "court", "date", "disposition"]

  /** A field is never both a list field and a string field. */
  lemma ActionFieldsDisjoint(k: string)
    ensures !(k in ActionListFields && k in ActionStringFields)
  {
  }

  lemma AgentFieldsDisjoint(k: string)
    ensures !(k in AgentListFields && k in AgentStringFields)
  {
  }

  /** Coerce the list fields, then the string fields, with `fallback` for falsy
      strings ("Not found" in the action layer, "Unknown" in the agent). */
  function CoerceAll(data: Entries, lists: seq<string>, strings: seq<string>, fallback: string, show: Value -> string): (r: Entries)
    ensures Keys(r) == Keys(data)
  {
    CoerceFields(CoerceFields(data, lists, ToList, show), strings, ToString(fallback), show)
  }

  /** After coercion every present list field holds a list, every present string
      field a string, a list or string that was already one is unchanged, and
      every other key keeps its value. */
  lemma CoerceAllFind(data: Entries, lists: seq<string>, strings: seq<string>, fallback: string, show: Value -> string, k: string)
    requires !(k in lists && k in strings)
    ensures var r := Find(CoerceAll(data, lists, strings, fallback, show), k);
      (r.Some? <==> Find(data, k).Some?)
      && (k in lists && r.Some? ==> r.value == CoerceList(Find(data, k).value, show))
      && (k in strings && r.Some? ==> r.value == CoerceString(Find(data, k).value, show, fallback))
      && (k !in lists && k !in strings ==> r == Find(data, k))
  {
    var mid := CoerceFields(data, lists, ToList, show);
    CoerceFieldsFind(data, lists, ToList, show, k);
    CoerceFieldsFind(mid, strings, ToString(fallback), show, k);
  }

  // ---------------------------------------------------------------------------
  // Validation.

  /** A validator's report: `is_valid`, `warnings`, `errors` and, where the
      validator gives them, `suggestions`. */
  datatype Report = Report(isValid: bool, warnings: seq<string>, errors: seq<string>, suggestions: seq<string>)

  /** `xs` is `ys` with some elements left out, the rest in the same order. */
  predicate Subsequence(xs: seq<string>, ys: seq<string>) {
    if xs == [] then true
    else if ys == [] then false
    else if xs[0] == ys[0] then Subsequence(xs[1..], ys[1..])
    else Subsequence(xs, ys[1..])
  }

  /** The fields of `fields` that are absent or falsy in the dict, in order:
      `[f for f in fields if not data.get(f)]`. */
  function Missing(data: Entries, fields: seq<string>): (r: seq<string>)
    ensures Subsequence(r, fields)
    ensures forall i :: 0 <= i < |r| ==> !Truthy(Find(data, r[i]).GetOr(Null))
    ensures forall i :: 0 <= i < |fields| && !Truthy(Find(data, fields[i]).GetOr(Null)) ==> fields[i] in r
  {
    if fields == [] then []
    else
      var rest := Missing(data, fields[1..]);
      assert forall i :: 1 <= i < |fields| ==> fields[i] == fields[1..][i - 1];
      if !Truthy(Find(data, fields[0]).GetOr(Null)) then [fields[0]] + rest else rest
  }

  /** Nothing is missing exactly when every field is present and truthy. */
  lemma MissingEmptyIff(data: Entries, fields: seq<string>)
    ensures Missing(data, fields) == [] <==> forall i :: 0 <= i < |fields| ==> Truthy(Find(data, fields[i]).GetOr(Null))
  {
    if Missing(data, fields) != [] {
      var f := Missing(data, fields)[0];
      SubsequenceMember(Missing(data, fields), fields, 0);
    }
  }

  /** A listed field is reported missing exactly when it is absent or falsy. */
  lemma MissingMember(data: Entries, fields: seq<string>, k: string)
    requires k in fields
    ensures k in Missing(data, fields) <==> !Truthy(Find(data, k).GetOr(Null))
  {
    var missing := Missing(data, fields);
    if k in missing {
      var j :| 0 <= j < |missing| && missing[j] == k;
    }
  }

  lemma {:induction false} SubsequenceMember(xs: seq<string>, ys: seq<string>, i: int)
    requires Subsequence(xs, ys) && 0 <= i < |xs|
    ensures xs[i] in ys
    decreases |ys|
  {
    if xs[0] == ys[0] {
      if i > 0 {
        SubsequenceMember(xs[1..], ys[1..], i - 1);
      }
    } else {
      SubsequenceMember(xs, ys[1..], i);
    }
  }

  /** Each name with a fixed prefix. */
  function Prefixed(prefix: string, names: seq<string>): (r: seq<string>)
    ensures |r| == |names|
    ensures forall i :: 0 <= i < |names| ==> r[i] == prefix + names[i]
  {
    seq(|names|, i requires 0 <= i < |names| => prefix + names[i])
  }

  /** The fields of `fields` present in the dict with a value that is not a list. */
  function NotLists(data: Entries, fields: seq<string>): (r: seq<string>)
    ensures Subsequence(r, fields)
    ensures forall i :: 0 <= i < |r| ==> Find(data, r[i]).Some? && !Find(data, r[i]).value.List?
    ensures forall i :: 0 <= i < |fields| && Find(data, fields[i]).Some? && !Find(data, fields[i]).value.List? ==> fields[i] in r
  {
    if fields == [] then []
    else
      var rest := NotLists(data, fields[1..]);
      assert forall i :: 1 <= i < |fields| ==> fields[i] == fields[1..][i - 1];
      var f := fields[0];
      if Find(data, f).Some? && !Find(data, f).value.List? then [f] + rest else rest
  }

  const RequiredFields: seq<string> := ["case_name", "facts", "legal_issues", "holdings"]
  const ActionCheckedLists: seq<string> := ["legal_issues", "holdings", "reasoning", "citations"]
  const AgentCheckedLists: seq<string> := ["legal_issues", "holdings", "reasoning", "citations", "judges"]

  /** A warning per checked list field that holds something else. */
  function ListWarnings(data: Entries, lists: seq<string>): (r: seq<string>)
    ensures |r| == |NotLists(data, lists)|
    ensures forall i :: 0 <= i < |r| ==> r[i] == NotLists(data, lists)[i] + " should be a list"
  {
    var bad := NotLists(data, lists);
    seq(|bad|, i requires 0 <= i < |bad| => bad[i] + " should be a list")
  }

  /** The extractor agent's date check: `None` where Python raises, a warning when
      a truthy date other than "Not found" does not match `matches`. */
  function DateWarnings(date: Value, matches: string -> bool): (r: Option<seq<string>>)
    ensures r.None? <==> Truthy(date) && date != Str("Not found") && !date.Str?
    ensures r.Some? ==> |r.value| <= 1
    ensures r.Some? && r.value != [] <==> date.Str? && date.s != [] && date.s != "Not found" && !matches(date.s)
  {
    if !Truthy(date) || date == Str("Not found") then Some([])
    else if !date.Str? then None
    else if matches(date.s) then Some([])
    else Some(["Date format may be non-standard"])
  }

  /** `validate_extraction`: an error per required field that is absent or falsy, a
      warning per checked list field holding something else than a list. The
      extractor agent also checks the date first (`dateMatches` is its date
      expression); the action layer does not (`None`). */
  function ValidateExtraction(data: Entries, lists: seq<string>, dateMatches: Option<string -> bool>): (r: Option<Report>)
    ensures dateMatches.None? ==> r.Some? && r.value.warnings == ListWarnings(data, lists)
    ensures dateMatches.Some? ==> (r.None? <==> DateWarnings(Find(data, "date").GetOr(Null), dateMatches.value).None?)
    ensures r.Some? ==> (r.value.isValid <==> Missing(data, RequiredFields) == [])
    ensures r.Some? ==> r.value.errors == Prefixed("Missing required field: ", Missing(data, RequiredFields))
    ensures r.Some? ==> exists dw :: r.value.warnings == dw + ListWarnings(data, lists) && |dw| <= 1
  {
    var missing := Missing(data, RequiredFields);
    var dateWarnings :=
      match dateMatches
      case None => Some([])
      case Some(matches) => DateWarnings(Find(data, "date").GetOr(Null), matches);
    match dateWarnings
    case None => None
    case Some(dw) =>
      Some(Report(missing == [], dw + ListWarnings(data, lists), Prefixed("Missing required field: ", missing), []))
  }
}
