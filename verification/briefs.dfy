/** What the action layer (server/layers/action_layer.py) and the brief generator
    agent (server/agents/brief_generator.py) both do with a brief: the input check,
    the word count, the completeness score, the enhancement that fills in missing
    sections, and the brief validator. The two files carry copies of the same
    code; it is defined once here, with the agent's extra metadata key and extra
    validator checks as switches. */
module Briefs {
  import opened Wrappers
  import opened Values
  import PyText
  import opened Extraction

  /** The fields a brief needs from the extraction. */
  const InputFields: seq<string> := ["facts", "legal_issues", "holdings"]

  /** The sections of a brief. */
  const Sections: seq<string> := ["issue", "facts", "holding", "reasoning"]

  const Placeholder := "Not available"

  /** The input check of `generate_legal_brief` / `generate`: `None` when the data
      can be used, else the error. */
  function CheckInput(extracted: Value): (r: Option<string>)
    requires extracted.Dict? || !Truthy(extracted)
    ensures r.None? <==> Truthy(extracted) && Missing(extracted.entries, InputFields) == []
    ensures !Truthy(extracted) ==> r == Some("No extracted data provided")
    ensures Truthy(extracted) && Missing(extracted.entries, InputFields) != [] ==>
      r == Some("Missing required fields: " + PyText.JoinWith(", ", Missing(extracted.entries, InputFields)))
  {
    if !Truthy(extracted) then Some("No extracted data provided")
    else
      var missing := Missing(extracted.entries, InputFields);
      if missing != [] then Some("Missing required fields: " + PyText.JoinWith(", ", missing)) else None
  }

  // ---------------------------------------------------------------------------
  // Word count.

  /** Words of one text section: counted when present and truthy. */
  function SectionWords(brief: Entries, section: string, show: Value -> string): nat {
    match Find(brief, section)
    case Some(v) => if Truthy(v) then PyText.WordCount(AsText(v, show)) else 0
    case None => 0
  }

  /** Words of the reasoning items. */
  function ItemWords(items: seq<Value>, show: Value -> string): nat {
    if items == [] then 0 else PyText.WordCount(AsText(items[0], show)) + ItemWords(items[1..], show)
  }

  /** The `word_count` the enhancement stores: the whitespace words of `issue`,
      `facts` and `holding`, plus those of each reasoning item when `reasoning` is a
      list. */
  function WordCount(brief: Entries, show: Value -> string): nat {
    var reasoning := Find(brief, "reasoning");
    SectionWords(brief, "issue", show) + SectionWords(brief, "facts", show) + SectionWords(brief, "holding", show)
    + (if reasoning.Some? && reasoning.value.List? then ItemWords(reasoning.value.items, show) else 0)
  }

  /** The word count reads only the four sections: writing any other key leaves it
      as it was. */
  lemma WordCountFrame(brief: Entries, k: string, v: Value, show: Value -> string)
    requires k !in Sections
    ensures WordCount(Put(brief, k, v), show) == WordCount(brief, show)
  {
    FindPutOther(brief, k, v, "issue");
    FindPutOther(brief, k, v, "facts");
    FindPutOther(brief, k, v, "holding");
    FindPutOther(brief, k, v, "reasoning");
  }

  // ---------------------------------------------------------------------------
  // The completeness score.

  /** One section's points: 20 when present, truthy and not the placeholder, but
      10 for a reasoning list of fewer than three items. */
  function SectionScore(brief: Entries, section: string): (n: nat)
    ensures n <= 20
    ensures n > 0 <==> Find(brief, section).Some? && Truthy(Find(brief, section).value)
                       && Find(brief, section).value != Str(Placeholder)
  {
    match Find(brief, section)
    case None => 0
    case Some(v) =>
      if Truthy(v) && v != Str(Placeholder) then
        if section == "reasoning" && v.List? then (if |v.items| >= 3 then 20 else 10) else 20
      else 0
  }

  /** The word-count points: 10 for 200 to 400 words, 5 for 100 to 199 or 401 to
      500. */
  function LengthScore(words: int): (n: nat)
    ensures n == 10 <==> 200 <= words <= 400
    ensures n == 5 <==> (100 <= words < 200 || 400 < words <= 500)
    ensures n == 0 <==> (words < 100 || words > 500)
  {
    if 200 <= words <= 400 then 10
    else if 100 <= words < 200 || 400 < words <= 500 then 5
    else 0
  }

  /** `_calculate_brief_confidence` with `words` the `word_count` just stored: the
      section points, the length points, and 10 for key citations, capped at 100.
      `None` where Python raises: `len()` of truthy key citations that have no
      length. */
  function Confidence(brief: Entries, words: int): (r: Option<int>)
    ensures r.None? <==> Find(brief, "key_citations").Some? && Truthy(Find(brief, "key_citations").value)
                         && PyLen(Find(brief, "key_citations").value).None?
    ensures r.Some? ==> 0 <= r.value <= 100
  {
    var sections := SectionScore(brief, "issue") + SectionScore(brief, "facts")
                    + SectionScore(brief, "holding") + SectionScore(brief, "reasoning");
    var citations := Find(brief, "key_citations").GetOr(List([]));
    if Truthy(citations) && PyLen(citations).None? then None
    else
      var score := sections + LengthScore(words) + (if Truthy(citations) && PyLen(citations).value > 0 then 10 else 0);
      Some(if score < 100 then score else 100)
  }

  /** The cap never binds: the points add up to at most 100, and they reach 100
      exactly when all four sections score in full, the length is 200 to 400 words
      and there are key citations. */
  lemma ConfidenceFullIff(brief: Entries, words: int)
    requires Confidence(brief, words).Some?
    ensures Confidence(brief, words).value == 100 <==>
      SectionScore(brief, "issue") == 20 && SectionScore(brief, "facts") == 20
      && SectionScore(brief, "holding") == 20 && SectionScore(brief, "reasoning") == 20
      && 200 <= words <= 400 && Truthy(Find(brief, "key_citations").GetOr(List([])))
  {
    var citations := Find(brief, "key_citations").GetOr(List([]));
    if Truthy(citations) {
      assert PyLen(citations).value > 0;
    }
  }

  // ---------------------------------------------------------------------------
  // Enhancement.

  /** `confidence_score` is kept when it is a number from 0 to 100. */
  predicate ValidScore(v: Value) {
    AsNumber(v).Some? && 0.0 <= AsNumber(v).value <= 100.0
  }

  /** `for section in sections: if section not in d: d[section] = filler`. */
  function FillMissing(brief: Entries, sections: seq<string>, filler: Value): Entries
    decreases |sections|
  {
    if sections == [] then brief
    else
      var next := if HasKey(brief, sections[0]) then brief else Put(brief, sections[0], filler);
      FillMissing(next, sections[1..], filler)
  }

  /** Filling never changes a key that is already there, and gives an absent listed
      section the filler. */
  lemma {:induction false} FillKeeps(brief: Entries, sections: seq<string>, filler: Value, k: string)
    ensures HasKey(brief, k) ==> Find(FillMissing(brief, sections, filler), k) == Find(brief, k)
    ensures !HasKey(brief, k) && k !in sections ==> Find(FillMissing(brief, sections, filler), k) == None
    ensures !HasKey(brief, k) && k in sections ==> Find(FillMissing(brief, sections, filler), k) == Some(filler)
    decreases |sections|
  {
    if sections != [] {
      var s := sections[0];
      var next := if HasKey(brief, s) then brief else Put(brief, s, filler);
      FillKeeps(next, sections[1..], filler, k);
      if !HasKey(brief, s) && k != s {
        FindPutOther(brief, s, filler, k);
      }
    }
  }

  /** The metadata the enhancement stores. */
  function Metadata(scored: Entries, extracted: Entries, timestamp: real, listSections: bool): Value {
    Dict([
      ("source_case", Find(extracted, "case_name").GetOr(Str("Unknown"))),
      ("source_court", Find(extracted, "court").GetOr(Str("Unknown"))),
      ("generation_timestamp", Real(timestamp))]
      + (if listSections then [("sections_included", StrList(Keys(scored)))] else []))
  }

  /** The last steps of the enhancement: metadata, the missing sections, and the
      key citations. */
  function Finish(scored: Entries, extracted: Entries, timestamp: real, listSections: bool): Entries {
    var filled := FillMissing(Put(scored, "metadata", Metadata(scored, extracted, timestamp, listSections)), Sections, Str(Placeholder));
    if HasKey(filled, "key_citations") then filled else Put(filled, "key_citations", List([]))
  }

  /** The first steps of the enhancement: store the word count, then a computed
      `confidence_score` unless the brief's own is a number from 0 to 100. `None`
      where Python raises (see `Confidence`). */
  function Score(brief: Entries, show: Value -> string): Option<Entries> {
    var words := WordCount(brief, show);
    var counted := Put(brief, "word_count", Int(words));
    if ValidScore(Find(counted, "confidence_score").GetOr(Int(0))) then Some(counted)
    else
      var c :- Confidence(counted, words);
      Some(Put(counted, "confidence_score", Int(c)))
  }

  /** `_enhance_brief_data(brief, extracted)` at time `timestamp`. The agent's copy
      also lists the keys in the metadata (`listSections`). */
  function Enhance(brief: Entries, extracted: Entries, show: Value -> string, timestamp: real, listSections: bool): Option<Entries> {
    var scored :- Score(brief, show);
    Some(Finish(scored, extracted, timestamp, listSections))
  }

  /** Scoring leaves the sections alone and stores the count of the brief as it
      came in. */
  lemma ScoreSection(brief: Entries, show: Value -> string, section: string)
    requires section in Sections
    ensures var r := Score(brief, show);
      r.Some? ==> Find(r.value, section) == Find(brief, section)
                  && Find(r.value, "word_count") == Some(Int(WordCount(brief, show)))
  {
    var words := WordCount(brief, show);
    var counted := Put(brief, "word_count", Int(words));
    var c := Confidence(counted, words).GetOr(0);
    FindPutOther(brief, "word_count", Int(words), section);
    FindPutOther(counted, "confidence_score", Int(c), section);
    FindPutOther(counted, "confidence_score", Int(c), "word_count");
  }

  /** The finishing steps give every section and the key citations, keep a section
      that was there, and fill a missing one with "Not available". */
  lemma FinishSection(scored: Entries, extracted: Entries, timestamp: real, listSections: bool, section: string)
    requires section in Sections
    ensures var r := Finish(scored, extracted, timestamp, listSections);
      HasKey(r, section) && HasKey(r, "key_citations")
      && Find(r, section) == (if HasKey(scored, section) then Find(scored, section) else Some(Str(Placeholder)))
  {
    var metadata := Metadata(scored, extracted, timestamp, listSections);
    var withMeta := Put(scored, "metadata", metadata);
    var filled := FillMissing(withMeta, Sections, Str(Placeholder));
    FindPutOther(scored, "metadata", metadata, section);
    HasKeyPutOther(scored, "metadata", metadata, section);
    FillKeeps(withMeta, Sections, Str(Placeholder), section);
    if !HasKey(filled, "key_citations") {
      FindPutOther(filled, "key_citations", List([]), section);
      HasKeyPutOther(filled, "key_citations", List([]), section);
      HasKeyPut(filled, "key_citations", List([]), "key_citations");
    }
  }

  /** The finishing steps leave every key other than the sections, the metadata
      and the key citations as it was. */
  lemma FinishOther(scored: Entries, extracted: Entries, timestamp: real, listSections: bool, k: string)
    requires k !in Sections && k != "metadata" && k != "key_citations"
    ensures Find(Finish(scored, extracted, timestamp, listSections), k) == Find(scored, k)
  {
    var metadata := Metadata(scored, extracted, timestamp, listSections);
    var withMeta := Put(scored, "metadata", metadata);
    var filled := FillMissing(withMeta, Sections, Str(Placeholder));
    FindPutOther(scored, "metadata", metadata, k);
    HasKeyPutOther(scored, "metadata", metadata, k);
    FillKeeps(withMeta, Sections, Str(Placeholder), k);
    if !HasKey(filled, "key_citations") {
      FindPutOther(filled, "key_citations", List([]), k);
    }
  }

  /** Key citations the brief carries come through the enhancement unchanged. */
  lemma EnhanceKeepsCitations(brief: Entries, extracted: Entries, show: Value -> string, timestamp: real, listSections: bool)
    requires HasKey(brief, "key_citations")
    ensures var r := Enhance(brief, extracted, show, timestamp, listSections);
      r.Some? ==> Find(r.value, "key_citations") == Find(brief, "key_citations")
  {
    var words := WordCount(brief, show);
    var counted := Put(brief, "word_count", Int(words));
    FindPutOther(brief, "word_count", Int(words), "key_citations");
    HasKeyPutOther(brief, "word_count", Int(words), "key_citations");
    var r := Score(brief, show);
    if r.Some? {
      var scored := r.value;
      if scored != counted {
        var c := Confidence(counted, words).value;
        FindPutOther(counted, "confidence_score", Int(c), "key_citations");
        HasKeyPutOther(counted, "confidence_score", Int(c), "key_citations");
      }
      var metadata := Metadata(scored, extracted, timestamp, listSections);
      var withMeta := Put(scored, "metadata", metadata);
      FindPutOther(scored, "metadata", metadata, "key_citations");
      HasKeyPutOther(scored, "metadata", metadata, "key_citations");
      FillKeeps(withMeta, Sections, Str(Placeholder), "key_citations");
      KeysHasKey(FillMissing(withMeta, Sections, Str(Placeholder)), "key_citations");
    }
  }

  /** What the enhancement guarantees of the sections: all four and the key
      citations are present, a section the brief had is unchanged and a missing one
      reads "Not available". */
  lemma EnhanceShape(brief: Entries, extracted: Entries, show: Value -> string, timestamp: real, listSections: bool, section: string)
    requires section in Sections
    ensures var r := Enhance(brief, extracted, show, timestamp, listSections);
      r.Some? ==>
        HasKey(r.value, section) && HasKey(r.value, "key_citations")
        && Find(r.value, section) == (if HasKey(brief, section) then Find(brief, section) else Some(Str(Placeholder)))
  {
    var scored := Score(brief, show);
    if scored.Some? {
      ScoreSection(brief, show, section);
      FinishSection(scored.value, extracted, timestamp, listSections, section);
    }
  }

  /** The stored `word_count` is the count of the brief as it came in, so the
      placeholders the enhancement adds are not counted. */
  lemma EnhanceWordCount(brief: Entries, extracted: Entries, show: Value -> string, timestamp: real, listSections: bool)
    ensures var r := Enhance(brief, extracted, show, timestamp, listSections);
      r.Some? ==> Find(r.value, "word_count") == Some(Int(WordCount(brief, show)))
  {
    var scored := Score(brief, show);
    if scored.Some? {
      ScoreSection(brief, show, "issue");
      FinishOther(scored.value, extracted, timestamp, listSections, "word_count");
    }
  }

  /** What the enhancement stores as `confidence_score`: the brief's own when it is
      a number from 0 to 100 (so an absent score stays absent, since the default is
      0), otherwise the computed score, which lies in 0 to 100; it fails only when
      that score cannot be computed. */
  lemma EnhanceScore(brief: Entries, extracted: Entries, show: Value -> string, timestamp: real, listSections: bool)
    ensures var r := Enhance(brief, extracted, show, timestamp, listSections);
      var given := Find(brief, "confidence_score").GetOr(Int(0));
      var words := WordCount(brief, show);
      var computed := Confidence(Put(brief, "word_count", Int(words)), words);
      (r.None? <==> !ValidScore(given) && computed.None?)
      && (r.Some? && ValidScore(given) ==> Find(r.value, "confidence_score") == Find(brief, "confidence_score"))
      && (r.Some? && !ValidScore(given) ==> Find(r.value, "confidence_score") == Some(Int(computed.value)) && 0 <= computed.value <= 100)
  {
    var words := WordCount(brief, show);
    FindPutOther(brief, "word_count", Int(words), "confidence_score");
    var scored := Score(brief, show);
    if scored.Some? {
      FinishOther(scored.value, extracted, timestamp, listSections, "confidence_score");
    }
  }

  // ---------------------------------------------------------------------------
  // Validation.

  /** The word-count warning: over 500 words too long, under 100 very short. The
      agent's copy adds advice to the message. */
  function LengthWarnings(count: Value, n: real, show: Value -> string, agent: bool): (r: seq<string>)
    ensures |r| <= 1
    ensures r == [] <==> 100.0 <= n <= 500.0
  {
    if n > 500.0 then ["Brief is too long (" + AsText(count, show) + " words)" + (if agent then ". Consider shortening." else "")]
    else if n < 100.0 then ["Brief is very short (" + AsText(count, show) + " words)" + (if agent then ". Consider expanding." else "")]
    else []
  }

  /** The agent's advice on the number of reasoning points, given only when
      `reasoning` is a list. */
  function ReasoningSuggestions(reasoning: Value): (r: seq<string>)
    ensures r != [] <==> reasoning.List? && (|reasoning.items| < 2 || |reasoning.items| > 6)
  {
    if !reasoning.List? then []
    else if |reasoning.items| < 2 then ["Consider adding more reasoning points (3-5 recommended)"]
    else if |reasoning.items| > 6 then ["Consider condensing reasoning points (3-5 recommended)"]
    else []
  }

  const NoCitationsWarning := "No citations found. Legal briefs typically include citations."

  /** `validate_brief` of the action layer (`agent` false) and of the brief
      generator (`agent` true). `None` where Python raises: a `word_count` that is
      not a number cannot be compared with 500, and the agent takes `len()` of
      truthy key citations. */
  function ValidateBrief(brief: Entries, show: Value -> string, agent: bool): (r: Option<Report>)
    ensures var count := Find(brief, "word_count").GetOr(Int(0));
            var citations := Find(brief, "key_citations").GetOr(List([]));
      r.None? <==> AsNumber(count).None? || (agent && Truthy(citations) && PyLen(citations).None?)
    ensures r.Some? ==> (r.value.isValid <==> Missing(brief, Sections) == [])
    ensures r.Some? ==> r.value.errors == Prefixed("Missing required section: ", Missing(brief, Sections))
    ensures r.Some? && !agent ==> r.value.suggestions == [] && |r.value.warnings| <= 1
    ensures r.Some? && !agent ==>
      r.value.warnings == LengthWarnings(Find(brief, "word_count").GetOr(Int(0)), AsNumber(Find(brief, "word_count").GetOr(Int(0))).value, show, false)
    ensures r.Some? && agent ==>
      r.value.warnings == LengthWarnings(Find(brief, "word_count").GetOr(Int(0)), AsNumber(Find(brief, "word_count").GetOr(Int(0))).value, show, true)
                          + CitationWarnings(Find(brief, "key_citations").GetOr(List([]))).value
  {
    var missing := Missing(brief, Sections);
    var count := Find(brief, "word_count").GetOr(Int(0));
    var n :- AsNumber(count);
    var lengthWarnings := LengthWarnings(count, n, show, agent);
    if !agent then Some(Report(missing == [], lengthWarnings, Prefixed("Missing required section: ", missing), []))
    else
      var citations := Find(brief, "key_citations").GetOr(List([]));
      var citationWarnings :- CitationWarnings(citations);
      Some(Report(missing == [], lengthWarnings + citationWarnings,
                  Prefixed("Missing required section: ", missing),
                  ReasoningSuggestions(Find(brief, "reasoning").GetOr(List([])))))
  }

  /** The agent's citation warning; `None` where `len()` raises. */
  function CitationWarnings(citations: Value): (r: Option<seq<string>>)
    ensures r.None? <==> Truthy(citations) && PyLen(citations).None?
    ensures r.Some? ==> (r.value == [NoCitationsWarning] <==> !Truthy(citations)) && (r.value != [] ==> r.value == [NoCitationsWarning])
  {
    if !Truthy(citations) then Some([NoCitationsWarning])
    else if PyLen(citations).None? then None
    else Some([])
  }

  /** A section the enhancement filled in is never reported missing afterwards: the
      validator flags exactly the sections the brief carried with a falsy value. */
  lemma EnhanceThenValidate(brief: Entries, extracted: Entries, show: Value -> string, timestamp: real, listSections: bool, section: string)
    requires section in Sections
    ensures var r := Enhance(brief, extracted, show, timestamp, listSections);
      r.Some? ==> (section in Missing(r.value, Sections) <==> HasKey(brief, section) && !Truthy(Find(brief, section).value))
  {
    var r := Enhance(brief, extracted, show, timestamp, listSections);
    if r.Some? {
      EnhanceShape(brief, extracted, show, timestamp, listSections, section);
      PlaceholderTruthy();
      MissingMember(r.value, Sections, section);
    }
  }

  /** The placeholder is a non-empty string. */
  lemma PlaceholderTruthy()
    ensures Truthy(Str(Placeholder))
  {
  }
}
