/** The citation normalizer agent (server/agents/citation_normalizer.py): the
    supported formats, the per-citation loop, the cleaning of matched parts, the
    format templates with their fallback, the confidence of a parse and the
    format checks. The four citation expressions, the suffix expression for party
    names and the court-name expressions are parameters; everything done to their
    results is modelled. */
module CitationNormalizer {
  import opened Wrappers
  import opened Values
  import PyText

  const SupportedFormats: seq<string> := ["bluebook", "apa", "mla", "chicago"]

  /** The four citation expressions, in the order they are tried. */
  datatype CitationType = CaseCite | StatuteCite | ConstitutionalCite | JournalCite

  const PatternOrder: seq<CitationType> := [CaseCite, StatuteCite, ConstitutionalCite, JournalCite]

  /** The template key: the type name without `_citation`. */
  function TypeKey(t: CitationType): string {
    match t
    case CaseCite => "case"
    case StatuteCite => "statute"
    case ConstitutionalCite => "constitutional"
    case JournalCite => "journal"
  }

  function CitationTypeName(t: CitationType): string {
    TypeKey(t) + "_citation"
  }

  /** The names given to each expression's groups, in group order. */
  function GroupNames(t: CitationType): seq<string> {
    match t
    case CaseCite => ["plaintiff", "defendant", "volume", "reporter", "page", "court_year"]
    case StatuteCite => ["title", "code", "section"]
    case ConstitutionalCite => ["country", "provision"]
    case JournalCite => ["author", "title", "volume", "journal", "page", "year"]
  }

  /** `re.search(pattern, citation, re.IGNORECASE)` for each expression: the groups
      of the match (`None` for a group that did not take part), or `None` when the
      expression does not match. */
  type Matcher = (CitationType, string) -> Option<seq<Option<string>>>

  /** The expressions the model does not interpret: the citation search, the
      suffix removal of `_clean_party_name` and `_clean_court_name`. */
  datatype Expressions = Expressions(search: Matcher, dropSuffix: string -> string, cleanCourt: string -> string)

  /** A dict of parts, name to text, in insertion order. */
  type Parts = seq<(string, string)>

  /** `parts.get(name)`. */
  function Part(ps: Parts, name: string): (r: Option<string>)
    ensures r.Some? ==> (name, r.value) in ps
    ensures r.None? ==> forall i :: 0 <= i < |ps| ==> ps[i].0 != name
  {
    if ps == [] then None
    else if ps[0].0 == name then Some(ps[0].1)
    else Part(ps[1..], name)
  }

  predicate HasText(ps: Parts, name: string) {
    Part(ps, name).Some? && Part(ps, name).value != []
  }

  // ---------------------------------------------------------------------------
  // Character classes and small rewrites.

  /** `\d` on ASCII digits. */
  predicate IsDigit(c: char) {
    '0' <= c <= '9'
  }

  predicate IsLetter(c: char) {
    'a' <= c <= 'z' || 'A' <= c <= 'Z'
  }

  /** Four digits start at `i`. */
  predicate FourDigitsAt(s: string, i: int) {
    0 <= i && i + 4 <= |s| && IsDigit(s[i]) && IsDigit(s[i + 1]) && IsDigit(s[i + 2]) && IsDigit(s[i + 3])
  }

  /** `re.search(r'\d{4}', s)` from position `i`: where the first run of four
      digits starts. */
  function FirstYearFrom(s: string, i: nat): (r: Option<nat>)
    ensures r.Some? ==> i <= r.value && FourDigitsAt(s, r.value)
    ensures r.Some? ==> forall j :: i <= j < r.value ==> !FourDigitsAt(s, j)
    ensures r.None? ==> forall j :: i <= j ==> !FourDigitsAt(s, j)
    decreases |s| - i
  {
    if i + 4 > |s| then None
    else if FourDigitsAt(s, i) then Some(i)
    else FirstYearFrom(s, i + 1)
  }

  /** The year part: its first four-digit run, or the text itself when it has none. */
  function YearText(s: string): (r: string)
    ensures FirstYearFrom(s, 0).None? ==> r == s
    ensures FirstYearFrom(s, 0).Some? ==> |r| == 4 && FourDigitsAt(r, 0)
  {
    match FirstYearFrom(s, 0)
    case Some(i) => s[i..i + 4]
    case None => s
  }

  predicate NumericChar(c: char) {
    IsDigit(c) || c == '.' || c == '-'
  }

  /** `re.sub(r'[^\d.-]', '', s)`: the digits, points and dashes, in order. */
  function KeepNumeric(s: string): (r: string)
    ensures |r| <= |s|
    ensures forall i :: 0 <= i < |r| ==> NumericChar(r[i])
    ensures (forall i :: 0 <= i < |s| ==> NumericChar(s[i])) ==> r == s
  {
    if s == [] then []
    else if NumericChar(s[0]) then [s[0]] + KeepNumeric(s[1..])
    else KeepNumeric(s[1..])
  }

  /** The number of leading whitespace characters. */
  function SpaceRun(s: string): (n: nat)
    ensures n <= |s|
    ensures forall i :: 0 <= i < n ==> PyText.IsSpace(s[i])
    ensures n == |s| || !PyText.IsSpace(s[n])
  {
    if s == [] || !PyText.IsSpace(s[0]) then 0 else 1 + SpaceRun(s[1..])
  }

  /** An empty pair of parentheses, `\(\s*\)`, starts the text: its length. */
  function EmptyParens(s: string): (r: Option<nat>)
    ensures r.Some? ==> 2 <= r.value <= |s| && s[0] == '(' && s[r.value - 1] == ')'
    ensures r.Some? ==> forall i :: 1 <= i < r.value - 1 ==> PyText.IsSpace(s[i])
  {
    if s == [] || s[0] != '(' then None
    else
      var n := SpaceRun(s[1..]);
      if 1 + n < |s| && s[1 + n] == ')' then Some(n + 2) else None
  }

  /** `re.sub(r'\(\s*\)', '', s)`: a left-to-right scan that drops each empty pair
      of parentheses it meets. */
  function RemoveEmptyParens(s: string): (r: string)
    ensures |r| <= |s|
    decreases |s|
  {
    if s == [] then []
    else
      match EmptyParens(s)
      case Some(n) => RemoveEmptyParens(s[n..])
      case None => [s[0]] + RemoveEmptyParens(s[1..])
  }

  /** The characters other than parentheses and whitespace. */
  function Skeleton(s: string): string {
    if s == [] then []
    else if s[0] == '(' || s[0] == ')' || PyText.IsSpace(s[0]) then Skeleton(s[1..])
    else [s[0]] + Skeleton(s[1..])
  }

  lemma {:induction false} SkeletonAppend(a: string, b: string)
    ensures Skeleton(a + b) == Skeleton(a) + Skeleton(b)
  {
    if a != [] {
      assert (a + b)[0] == a[0];
      assert (a + b)[1..] == a[1..] + b;
      SkeletonAppend(a[1..], b);
    } else {
      assert a + b == b;
    }
  }

  /** Dropping empty parentheses drops nothing but parentheses and whitespace. */
  lemma {:induction false} RemoveEmptyParensKeeps(s: string)
    ensures Skeleton(RemoveEmptyParens(s)) == Skeleton(s)
    decreases |s|
  {
    if s != [] {
      match EmptyParens(s)
      case Some(n) =>
        RemoveEmptyParensKeeps(s[n..]);
        DroppedParens(s, n);
      case None =>
        RemoveEmptyParensKeeps(s[1..]);
        assert s == [s[0]] + s[1..];
        SkeletonAppend([s[0]], s[1..]);
        SkeletonAppend([s[0]], RemoveEmptyParens(s[1..]));
    }
  }

  lemma DroppedParens(s: string, n: nat)
    requires EmptyParens(s) == Some(n)
    ensures Skeleton(s) == Skeleton(s[n..])
  {
    assert s == s[..n] + s[n..];
    SkeletonAppend(s[..n], s[n..]);
    SkeletonOfEmptyParens(s[..n]);
  }

  /** Text without a `(` is left as it is. */
  lemma {:induction false} RemoveEmptyParensNone(s: string)
    requires '(' !in s
    ensures RemoveEmptyParens(s) == s
    decreases |s|
  {
    if s != [] {
      assert s[0] != '(';
      assert '(' !in s[1..];
      RemoveEmptyParensNone(s[1..]);
    }
  }

  lemma {:induction false} SkeletonOfEmptyParens(p: string)
    requires forall i :: 0 <= i < |p| ==> p[i] == '(' || p[i] == ')' || PyText.IsSpace(p[i])
    ensures Skeleton(p) == []
  {
    if p != [] {
      assert forall i :: 0 <= i < |p[1..]| ==> p[1..][i] == p[i + 1];
      SkeletonOfEmptyParens(p[1..]);
    }
  }

  // ---------------------------------------------------------------------------
  // The generic cleanup.

  /** The pairs the generic cleanup separates with a space: lower case then upper
      case, a letter then a digit, a digit then a letter. */
  datatype Boundary = LowerUpper | LetterDigit | DigitLetter

  predicate Splits(b: Boundary, x: char, y: char) {
    match b
    case LowerUpper => 'a' <= x <= 'z' && 'A' <= y <= 'Z'
    case LetterDigit => IsLetter(x) && IsDigit(y)
    case DigitLetter => IsDigit(x) && IsLetter(y)
  }

  /** `re.sub(r'(x)(y)', r'\1 \2', s)` for one boundary. A match's second character
      can never start another match, so the left-to-right scan puts a space into
      every such pair. */
  function SpaceBetween(s: string, b: Boundary): (r: string)
    ensures |r| >= |s|
    ensures s != [] ==> r != [] && r[0] == s[0]
    decreases |s|
  {
    if |s| < 2 then s
    else if Splits(b, s[0], s[1]) then [s[0], ' '] + SpaceBetween(s[1..], b)
    else [s[0]] + SpaceBetween(s[1..], b)
  }

  predicate NoBoundary(s: string, b: Boundary) {
    forall i :: 0 <= i < |s| - 1 ==> !Splits(b, s[i], s[i + 1])
  }

  /** The characters other than whitespace. */
  function Solid(s: string): string {
    if s == [] then []
    else if PyText.IsSpace(s[0]) then Solid(s[1..])
    else [s[0]] + Solid(s[1..])
  }

  lemma SpaceBetweenCons(s: string, b: Boundary)
    requires |s| >= 2
    ensures SpaceBetween(s, b) == (if Splits(b, s[0], s[1]) then [s[0], ' '] else [s[0]]) + SpaceBetween(s[1..], b)
  {
  }

  /** The pass only adds spaces. */
  lemma {:induction false} SpaceBetweenSolid(s: string, b: Boundary)
    ensures Solid(SpaceBetween(s, b)) == Solid(s)
    decreases |s|
  {
    if |s| >= 2 {
      SpaceBetweenSolid(s[1..], b);
      SpaceBetweenCons(s, b);
      var rest := SpaceBetween(s[1..], b);
      assert Solid(s) == [s[0]] + Solid(s[1..]) || Solid(s) == Solid(s[1..]);
      if Splits(b, s[0], s[1]) {
        var r := [s[0], ' '] + rest;
        assert r[1..] == [' '] + rest;
        assert Solid([' '] + rest) == Solid(rest);
      } else {
        assert ([s[0]] + rest)[1..] == rest;
      }
    }
  }

  /** After the pass no pair it splits is left, and a boundary of another kind
      that was absent stays absent. */
  lemma {:induction false} SpaceBetweenSplits(s: string, b: Boundary, other: Boundary)
    ensures NoBoundary(SpaceBetween(s, b), b)
    ensures NoBoundary(s, other) ==> NoBoundary(SpaceBetween(s, b), other)
    decreases |s|
  {
    if |s| >= 2 {
      var rest := SpaceBetween(s[1..], b);
      SpaceBetweenSplits(s[1..], b, other);
      SpaceBetweenCons(s, b);
      if NoBoundary(s, other) {
        forall i | 0 <= i < |s[1..]| - 1
          ensures !Splits(other, s[1..][i], s[1..][i + 1])
        {
          assert s[1..][i] == s[i + 1] && s[1..][i + 1] == s[i + 2];
        }
      }
      if Splits(b, s[0], s[1]) {
        var r := [s[0], ' '] + rest;
        assert forall i :: 2 <= i < |r| ==> r[i] == rest[i - 2];
      } else {
        var r := [s[0]] + rest;
        assert forall i :: 1 <= i < |r| ==> r[i] == rest[i - 1];
      }
    }
  }

  /** `_generic_citation_cleanup`: whitespace runs become one space, the ends are
      trimmed, and the three boundaries get a space each. */
  function GenericCleanup(citation: string): string {
    var trimmed := PyText.Strip(PyText.Collapse(citation));
    SpaceBetween(SpaceBetween(SpaceBetween(trimmed, LowerUpper), LetterDigit), DigitLetter)
  }

  /** The generic cleanup keeps every non-space character, in order, and leaves
      none of the three boundaries unsplit. */
  lemma GenericCleanupSound(citation: string)
    ensures var trimmed := PyText.Strip(PyText.Collapse(citation));
      Solid(GenericCleanup(citation)) == Solid(trimmed)
    ensures var r := GenericCleanup(citation);
      NoBoundary(r, LowerUpper) && NoBoundary(r, LetterDigit) && NoBoundary(r, DigitLetter)
  {
    var t := PyText.Strip(PyText.Collapse(citation));
    var a := SpaceBetween(t, LowerUpper);
    var b := SpaceBetween(a, LetterDigit);
    SpaceBetweenSolid(t, LowerUpper);
    SpaceBetweenSolid(a, LetterDigit);
    SpaceBetweenSolid(b, DigitLetter);
    SpaceBetweenSplits(t, LowerUpper, LowerUpper);
    SpaceBetweenSplits(a, LetterDigit, LowerUpper);
    SpaceBetweenSplits(b, DigitLetter, LowerUpper);
    SpaceBetweenSplits(b, DigitLetter, LetterDigit);
  }

  // ---------------------------------------------------------------------------
  // Reporters and party names.

  /** The reporter abbreviations `_standardize_reporter` knows, by lower-case key. */
  const ReporterTable: seq<(string, string)> := [
    ("f.supp", "F. Supp."),
    ("f.supp.2d", "F. Supp. 2d"),
    ("f.2d", "F.2d"),
    ("f.3d", "F.3d"),
    ("u.s.", "U.S."),
    ("s.ct.", "S. Ct."),
    ("l.ed.", "L. Ed."),
    ("l.ed.2d", "L. Ed. 2d")]

  function LookupReporter(t: seq<(string, string)>, key: string): (r: Option<string>)
    ensures r.Some? ==> exists i :: 0 <= i < |t| && t[i] == (key, r.value)
    ensures r.None? ==> forall i :: 0 <= i < |t| ==> t[i].0 != key
  {
    if t == [] then None
    else if t[0].0 == key then Some(t[0].1)
    else
      var r := LookupReporter(t[1..], key);
      assert r.Some? ==> exists i :: 0 <= i < |t[1..]| && t[1..][i] == (key, r.value);
      r
  }

  /** `_standardize_reporter`: the table entry for the lower-cased abbreviation, or
      the abbreviation as given. */
  function StandardizeReporter(reporter: string): (r: string)
    ensures (forall i :: 0 <= i < |ReporterTable| ==> ReporterTable[i].0 != PyText.Lower(reporter)) ==> r == reporter
  {
    match LookupReporter(ReporterTable, PyText.Lower(reporter))
    case Some(standard) => standard
    case None => reporter
  }

  /** The lookup ignores case: abbreviations that lower-case alike and are in the
      table standardize alike. */
  lemma ReporterIgnoresCase(a: string, b: string)
    requires PyText.Lower(a) == PyText.Lower(b)
    requires LookupReporter(ReporterTable, PyText.Lower(a)).Some?
    ensures StandardizeReporter(a) == StandardizeReporter(b)
  {
  }

  /** Each key standardizes to its own entry. */
  lemma ReporterKeys(i: nat)
    requires i < |ReporterTable|
    ensures StandardizeReporter(ReporterTable[i].0) == ReporterTable[i].1
  {
    var key := ReporterTable[i].0;
    assert PyText.Lower(key) == key;
  }

  /** A standard form is left as it is, so standardizing twice is standardizing
      once. */
  lemma ReporterIdempotent(reporter: string)
    ensures StandardizeReporter(StandardizeReporter(reporter)) == StandardizeReporter(reporter)
  {
    match LookupReporter(ReporterTable, PyText.Lower(reporter))
    case None =>
    case Some(standard) =>
      var i :| 0 <= i < |ReporterTable| && ReporterTable[i] == (PyText.Lower(reporter), standard);
      ReporterValueFixed(i);
  }

  lemma ReporterValueFixed(i: nat)
    requires i < |ReporterTable|
    ensures StandardizeReporter(ReporterTable[i].1) == ReporterTable[i].1
  {
    if i == 2 || i == 3 || i == 4 {
      ReporterValueIsKey(i);
    } else {
      ReporterValueSpaced(i);
    }
  }

  /** `F.2d`, `F.3d` and `U.S.` lower-case to their own keys. */
  lemma ReporterValueIsKey(i: nat)
    requires i == 2 || i == 3 || i == 4
    ensures StandardizeReporter(ReporterTable[i].1) == ReporterTable[i].1
  {
    assert PyText.Lower(ReporterTable[i].1) == ReporterTable[i].0;
  }

  /** The other standard forms hold a space where no key does. */
  lemma ReporterValueSpaced(i: nat)
    requires i < |ReporterTable| && i != 2 && i != 3 && i != 4
    ensures StandardizeReporter(ReporterTable[i].1) == ReporterTable[i].1
  {
    var l := PyText.Lower(ReporterTable[i].1);
    assert l[1] == ' ' || l[2] == ' ';
    forall j | 0 <= j < |ReporterTable|
      ensures ReporterTable[j].0 != l
    {
      assert ReporterTable[j].0[1] != ' ' && ReporterTable[j].0[2] != ' ';
    }
  }

  /** One word of a party name: `v`, `v.`, `vs` and `vs.` in any case become `v.`;
      longer words are capitalized, single letters upper-cased. */
  function PartyWord(w: string): string {
    var l := PyText.Lower(w);
    if l == "v" || l == "v." || l == "vs" || l == "vs." then "v."
    else if |w| > 1 then [PyText.UpperChar(w[0])] + PyText.Lower(w[1..])
    else PyText.Upper(w)
  }

  /** `_clean_party_name`: the suffix removed, then each word rewritten and the
      words joined with single spaces. */
  function CleanPartyName(name: string, dropSuffix: string -> string): string {
    var words := PyText.Words(dropSuffix(name));
    PyText.JoinSpace(seq(|words|, i requires 0 <= i < |words| => PartyWord(words[i])))
  }

  lemma CaseKeepsSpace(c: char)
    ensures PyText.IsSpace(PyText.UpperChar(c)) <==> PyText.IsSpace(c)
    ensures PyText.IsSpace(PyText.LowerChar(c)) <==> PyText.IsSpace(c)
  {
  }

  /** A rewritten word is still one word. */
  lemma PartyWordIsWord(w: string)
    requires PyText.IsWord(w)
    ensures PyText.IsWord(PartyWord(w))
  {
    var r := PartyWord(w);
    forall i | 0 <= i < |w| {
      CaseKeepsSpace(w[i]);
    }
    var l := PyText.Lower(w);
    if !(l == "v" || l == "v." || l == "vs" || l == "vs.") && |w| > 1 {
      assert forall i :: 1 <= i < |r| ==> r[i] == PyText.LowerChar(w[i]);
    }
  }

  /** Cleaning a party name rewrites it word by word: the words of the result are
      the rewritten words of the name, so there are as many of them. */
  lemma CleanPartyNameWords(name: string, dropSuffix: string -> string)
    ensures var words := PyText.Words(dropSuffix(name));
      PyText.Words(CleanPartyName(name, dropSuffix)) == seq(|words|, i requires 0 <= i < |words| => PartyWord(words[i]))
  {
    var words := PyText.Words(dropSuffix(name));
    var cleaned := seq(|words|, i requires 0 <= i < |words| => PartyWord(words[i]));
    forall i | 0 <= i < |cleaned| {
      PartyWordIsWord(words[i]);
    }
    PyText.WordsOfJoinSpace(cleaned);
  }

  // ---------------------------------------------------------------------------
  // Parts of a match.

  /** The named groups that took part in the match with some text, stripped:
      `components[name] = match.group(i + 1).strip()` for the group at `i`. */
  function MatchedParts(names: seq<string>, groups: seq<Option<string>>): (r: Parts)
    ensures forall i :: 0 <= i < |r| ==> r[i].0 in names
    decreases |names|
  {
    if names == [] || groups == [] then []
    else
      var rest := MatchedParts(names[1..], groups[1..]);
      if groups[0].Some? && groups[0].value != [] then [(names[0], PyText.Strip(groups[0].value))] + rest else rest
  }

  /** One part cleaned by its name: whitespace trimmed and collapsed, then party
      names, reporters, courts, numbers and years each their own way. */
  function CleanPart(name: string, value: string, ex: Expressions): string {
    var v := PyText.Collapse(PyText.Strip(value));
    if name == "plaintiff" || name == "defendant" then CleanPartyName(v, ex.dropSuffix)
    else if name == "reporter" then StandardizeReporter(v)
    else if name == "court" then ex.cleanCourt(v)
    else if name == "volume" || name == "page" || name == "section" then KeepNumeric(v)
    else if name == "year" then YearText(v)
    else v
  }

  /** `_clean_citation_components`: empty parts are dropped, the others cleaned,
      in order. */
  function CleanParts(ps: Parts, ex: Expressions): (r: Parts)
    ensures |r| <= |ps|
  {
    if ps == [] then []
    else
      var rest := CleanParts(ps[1..], ex);
      if ps[0].1 == [] then rest else [(ps[0].0, CleanPart(ps[0].0, ps[0].1, ex))] + rest
  }

  /** A cleaned part is found under its name exactly when the name had non-empty
      text before. */
  lemma {:induction false} CleanPartsHas(ps: Parts, ex: Expressions, name: string)
    ensures Part(CleanParts(ps, ex), name).Some? <==> exists j :: 0 <= j < |ps| && ps[j].0 == name && ps[j].1 != []
  {
    if ps != [] {
      CleanPartsHas(ps[1..], ex, name);
      if ps[0].0 == name && ps[0].1 != [] {
        assert Part(CleanParts(ps, ex), name).Some?;
      } else {
        assert forall j :: 1 <= j < |ps| ==> ps[j] == ps[1..][j - 1];
        if exists j :: 0 <= j < |ps| && ps[j].0 == name && ps[j].1 != [] {
          var j :| 0 <= j < |ps| && ps[j].0 == name && ps[j].1 != [];
          assert ps[1..][j - 1] == ps[j];
        }
      }
    }
  }

  /** The parts of a match, cleaned. */
  function PartsOf(t: CitationType, groups: seq<Option<string>>, ex: Expressions): Parts {
    CleanParts(MatchedParts(GroupNames(t), groups), ex)
  }

  /** Only a group's own name can be a part: a case citation has no `court` and no
      `year` part (its last group is called `court_year`). */
  lemma PartsNamed(t: CitationType, groups: seq<Option<string>>, ex: Expressions, name: string)
    requires name !in GroupNames(t)
    ensures Part(PartsOf(t, groups, ex), name).None?
  {
    var raw := MatchedParts(GroupNames(t), groups);
    CleanPartsHas(raw, ex, name);
  }

  // ---------------------------------------------------------------------------
  // Templates.

  datatype Piece = Lit(text: string) | Slot(name: string)

  type Template = seq<Piece>

  /** `format_templates[format][key]`, when the format is in the table. */
  function TemplateFor(format: string, t: CitationType): (r: Option<Template>)
    ensures r.Some? <==> format in SupportedFormats
  {
    if format == "bluebook" then Some(Bluebook(t))
    else if format == "apa" then
      Some(match t
        case JournalCite => [Slot("author"), Lit(" ("), Slot("year"), Lit("). "), Slot("title"), Lit(". "), Slot("journal"), Lit(", "), Slot("volume"), Lit(", "), Slot("page")]
        case ConstitutionalCite => [Slot("country"), Lit(" Constitution, "), Slot("provision")]
        case _ => Bluebook(t))
    else if format == "mla" then
      Some(match t
        case CaseCite => [Slot("plaintiff"), Lit(" v. "), Slot("defendant"), Lit(". "), Slot("reporter"), Lit(", vol. "), Slot("volume"), Lit(", "), Slot("year"), Lit(", p. "), Slot("page")]
        case StatuteCite => [Slot("code"), Lit(", title "), Slot("title"), Lit(", sec. "), Slot("section")]
        case ConstitutionalCite => [Slot("country"), Lit(" Constitution, "), Slot("provision")]
        case JournalCite => [Slot("author"), Lit(". \""), Slot("title"), Lit(".\" "), Slot("journal"), Lit(" "), Slot("volume"), Lit(" ("), Slot("year"), Lit("): "), Slot("page")])
    else if format == "chicago" then
      Some(match t
        case JournalCite => [Slot("author"), Lit(", \""), Slot("title"), Lit(",\" "), Slot("journal"), Lit(" "), Slot("volume"), Lit(" ("), Slot("year"), Lit("): "), Slot("page")]
        case ConstitutionalCite => [Slot("country"), Lit(" Constitution, "), Slot("provision")]
        case _ => Bluebook(t))
    else None
  }

  /** The Bluebook templates, which are also the fallback. */
  function Bluebook(t: CitationType): Template {
    match t
    case CaseCite =>
      [Slot("plaintiff"), Lit(" v. "), Slot("defendant"), Lit(", "), Slot("volume"), Lit(" "), Slot("reporter"), Lit(" "),
       Slot("page"), Lit(" ("), Slot("court"), Lit(" "), Slot("year"), Lit(")")]
    case StatuteCite => [Slot("title"), Lit(" "), Slot("code"), Lit(" § "), Slot("section")]
    case ConstitutionalCite => [Slot("country"), Lit(" Const. "), Slot("provision")]
    case JournalCite =>
      [Slot("author"), Lit(", "), Slot("title"), Lit(", "), Slot("volume"), Lit(" "), Slot("journal"), Lit(" "),
       Slot("page"), Lit(" ("), Slot("year"), Lit(")")]
  }

  /** `template.format(**parts)`: `None` (a `KeyError`) when a slot has no part. */
  function Fill(tp: Template, ps: Parts): (r: Option<string>)
    ensures r.Some? <==> forall i :: 0 <= i < |tp| && tp[i].Slot? ==> Part(ps, tp[i].name).Some?
  {
    if tp == [] then Some([])
    else
      var rest := Fill(tp[1..], ps);
      assert forall i :: 1 <= i < |tp| ==> tp[i] == tp[1..][i - 1];
      match tp[0]
      case Lit(text) => if rest.Some? then Some(text + rest.value) else None
      case Slot(name) =>
        if rest.Some? && Part(ps, name).Some? then Some(Part(ps, name).value + rest.value) else None
  }

  /** The texts of the parts that are not empty, in order. */
  function NonEmptyTexts(ps: Parts): (r: seq<string>)
    ensures forall i :: 0 <= i < |r| ==> r[i] != []
  {
    if ps == [] then []
    else if ps[0].1 == [] then NonEmptyTexts(ps[1..])
    else [ps[0].1] + NonEmptyTexts(ps[1..])
  }

  /** `_format_citation`: the format's template (Bluebook's when the format has
      none) filled in, its whitespace collapsed, empty parentheses dropped and the
      ends trimmed; when a slot has no part, the non-empty parts joined with
      spaces. */
  function FormatCitation(ps: Parts, t: CitationType, format: string): (r: string)
    ensures Fill(match TemplateFor(format, t) case Some(tp) => tp case None => Bluebook(t), ps).None? ==>
      r == PyText.JoinSpace(NonEmptyTexts(ps))
  {
    var template := match TemplateFor(format, t) case Some(tp) => tp case None => Bluebook(t);
    match Fill(template, ps)
    case Some(filled) => PyText.Strip(RemoveEmptyParens(PyText.Collapse(filled)))
    case None => PyText.JoinSpace(NonEmptyTexts(ps))
  }

  /** Every case template asks for a `year`, so parts without one never fill it:
      the parts are only joined with spaces. */
  lemma CaseNeedsYear(ps: Parts, format: string)
    requires Part(ps, "year").None?
    ensures FormatCitation(ps, CaseCite, format) == PyText.JoinSpace(NonEmptyTexts(ps))
  {
    var template := match TemplateFor(format, CaseCite) case Some(tp) => tp case None => Bluebook(CaseCite);
    if format == "mla" {
      assert template[8] == Slot("year");
    } else {
      assert template[12] == Slot("year");
    }
  }

  /** Hence a matched case citation is never written in any template: its parts
      are only joined with spaces. */
  lemma CaseCitationsFallBack(groups: seq<Option<string>>, ex: Expressions, format: string)
    ensures var ps := PartsOf(CaseCite, groups, ex);
      FormatCitation(ps, CaseCite, format) == PyText.JoinSpace(NonEmptyTexts(ps))
  {
    PartsNamed(CaseCite, groups, ex, "year");
    CaseNeedsYear(PartsOf(CaseCite, groups, ex), format);
  }

  /** A statute citation with all three parts is written in its template. */
  lemma StatuteFills(ps: Parts, format: string)
    requires format in SupportedFormats
    requires Part(ps, "title").Some? && Part(ps, "code").Some? && Part(ps, "section").Some?
    ensures Fill(TemplateFor(format, StatuteCite).value, ps).Some?
  {
  }

  // ---------------------------------------------------------------------------
  // Confidence.

  /** The parts each citation type needs; none for any other type name. */
  function RequiredParts(typeName: string): seq<string> {
    if typeName == "case_citation" then ["plaintiff", "defendant", "volume", "reporter", "page"]
    else if typeName == "statute_citation" then ["title", "code", "section"]
    else if typeName == "constitutional_citation" then ["country", "provision"]
    else if typeName == "journal_citation" then ["author", "title", "volume", "journal", "page"]
    else []
  }

  /** How many of `names` have non-empty text. */
  function CountFound(names: seq<string>, ps: Parts): (n: nat)
    ensures n <= |names|
  {
    if names == [] then 0
    else (if HasText(ps, names[0]) then 1 else 0) + CountFound(names[1..], ps)
  }

  /** `_calculate_citation_confidence`: the share of the required parts found,
      with 0.1 more when there is a year, at most 1; 0.5 for a type with no
      required parts. */
  function CitationConfidence(ps: Parts, typeName: string): (r: real)
    ensures 0.0 <= r <= 1.0
    ensures RequiredParts(typeName) == [] ==> r == 0.5
  {
    var required := RequiredParts(typeName);
    if required == [] then 0.5
    else
      var share := CountFound(required, ps) as real / |required| as real;
      var confidence := share + (if HasText(ps, "year") then 0.1 else 0.0);
      if confidence <= 1.0 then confidence else 1.0
  }

  /** Confidence is full exactly when every required part was found: the year
      bonus never makes up for a missing part. */
  lemma ConfidenceFullIff(ps: Parts, t: CitationType)
    ensures var required := RequiredParts(CitationTypeName(t));
      CitationConfidence(ps, CitationTypeName(t)) == 1.0 <==> CountFound(required, ps) == |required|
  {
    var name := CitationTypeName(t);
    var required := RequiredParts(name);
    RequiredSize(t);
    var found := CountFound(required, ps);
    var n := |required| as real;
    if found < |required| {
      ShareShort(found, |required|);
      assert CitationConfidence(ps, name) <= found as real / n + 0.1;
    } else {
      assert found as real / n == 1.0;
    }
  }

  lemma RequiredSize(t: CitationType)
    ensures var n := |RequiredParts(CitationTypeName(t))|; n == 2 || n == 3 || n == 5
  {
  }

  /** With at most five required parts, one missing costs more than the bonus. */
  lemma ShareShort(found: nat, n: nat)
    requires n == 2 || n == 3 || n == 5
    requires found < n
    ensures found as real / n as real + 0.1 < 1.0
  {
    if n == 2 {
      assert found as real / 2.0 <= 1.0 / 2.0;
    } else if n == 3 {
      assert found as real / 3.0 <= 2.0 / 3.0;
    } else {
      assert found as real / 5.0 <= 4.0 / 5.0;
    }
  }

  // ---------------------------------------------------------------------------
  // One citation and the batch.

  /** The first expression of `ts` that matches, with its groups. */
  function FirstMatch(citation: string, search: Matcher, ts: seq<CitationType>): (r: Option<(CitationType, seq<Option<string>>)>)
    ensures r.Some? ==> r.value.0 in ts && search(r.value.0, citation) == Some(r.value.1)
    ensures r.None? <==> forall i :: 0 <= i < |ts| ==> search(ts[i], citation).None?
  {
    if ts == [] then None
    else if search(ts[0], citation).Some? then Some((ts[0], search(ts[0], citation).value))
    else
      assert forall i :: 1 <= i < |ts| ==> ts[i] == ts[1..][i - 1];
      FirstMatch(citation, search, ts[1..])
  }

  /** The first expression that matches wins, whatever the later ones do. */
  lemma {:induction false} FirstMatchWins(citation: string, search: Matcher, ts: seq<CitationType>, i: nat)
    requires i < |ts| && search(ts[i], citation).Some?
    requires forall j :: 0 <= j < i ==> search(ts[j], citation).None?
    ensures FirstMatch(citation, search, ts) == Some((ts[i], search(ts[i], citation).value))
  {
    if i > 0 {
      FirstMatchWins(citation, search, ts[1..], i - 1);
    }
  }

  datatype Kind = Matched(t: CitationType) | Generic | Unknown | Failed

  function KindName(k: Kind): string {
    match k
    case Matched(t) => CitationTypeName(t)
    case Generic => "generic"
    case Unknown => "unknown"
    case Failed => "error"
  }

  /** One entry of `normalized_citations`; `parts` only for a matched citation. */
  datatype Entry = Entry(original: Value, normalized: Value, kind: Kind, parts: Option<Parts>, confidence: real, format: string)

  /** `_normalize_single_citation`: nothing for a blank citation; else the stripped
      citation, written from the parts of the first expression that matches, or
      cleaned up as a generic citation with confidence 0.3. */
  function NormalizeSingle(citation: string, format: string, ex: Expressions): (r: Option<Entry>)
    ensures r.None? <==> PyText.Strip(citation) == []
    ensures r.Some? ==> r.value.original == Str(PyText.Strip(citation)) && r.value.format == format
    ensures r.Some? ==>
      (r.value.kind == Generic <==> FirstMatch(PyText.Strip(citation), ex.search, PatternOrder).None?)
    ensures r.Some? && r.value.kind == Generic ==> r.value.confidence == 0.3
    ensures r.Some? && r.value.kind.Matched? ==>
      r.value.kind.t == FirstMatch(PyText.Strip(citation), ex.search, PatternOrder).value.0
  {
    var c := PyText.Strip(citation);
    if c == [] then None
    else
      match FirstMatch(c, ex.search, PatternOrder)
      case Some((t, groups)) =>
        var ps := PartsOf(t, groups, ex);
        Some(Entry(Str(c), Str(FormatCitation(ps, t, format)), Matched(t), Some(ps), CitationConfidence(ps, CitationTypeName(t)), format))
      case None =>
        Some(Entry(Str(c), Str(GenericCleanup(c)), Generic, None, 0.3, format))
  }

  /** The item at position `i` of the loop (counting from 0): a string is
      normalized, or kept as `unknown` with an error when it is blank; any other
      value is kept as `error` with the message of the failed `.strip()`. */
  function NormalizeItem(item: Value, i: nat, format: string, ex: Expressions): (r: (Entry, seq<string>))
    ensures r.0.format == format
    ensures r.0.kind == Failed <==> !item.Str?
    ensures r.0.kind == Unknown <==> item.Str? && PyText.Strip(item.s) == []
    ensures r.0.kind == Unknown || r.0.kind == Failed ==> r.0.original == item && r.0.normalized == item && r.0.confidence == 0.0
    ensures |r.1| <= 1
    ensures r.1 == [] <==> item.Str? && PyText.Strip(item.s) != []
  {
    var position := PyText.NatToString(i + 1);
    if !item.Str? then
      (Entry(item, item, Failed, None, 0.0, format), ["Citation " + position + ": " + NoStripMessage(item)])
    else
      match NormalizeSingle(item.s, format, ex)
      case Some(entry) => (entry, [])
      case None => (Entry(item, item, Unknown, None, 0.0, format), ["Citation " + position + ": Could not parse citation format"])
  }

  /** The loop over `items`, the first of them at position `i`. */
  function NormalizeEach(items: seq<Value>, i: nat, format: string, ex: Expressions): (r: (seq<Entry>, seq<string>))
    ensures |r.0| == |items|
    ensures |r.1| <= |items|
    decreases |items|
  {
    if items == [] then ([], [])
    else
      var first := NormalizeItem(items[0], i, format, ex);
      var rest := NormalizeEach(items[1..], i + 1, format, ex);
      ([first.0] + rest.0, first.1 + rest.1)
  }

  /** Entry `j` of the loop is the normalized item `j`. */
  lemma {:induction false} NormalizeEachAt(items: seq<Value>, i: nat, format: string, ex: Expressions, j: nat)
    requires j < |items|
    ensures NormalizeEach(items, i, format, ex).0[j] == NormalizeItem(items[j], i + j, format, ex).0
    decreases |items|
  {
    if j > 0 {
      NormalizeEachAt(items[1..], i + 1, format, ex, j - 1);
      assert items[1..][j - 1] == items[j];
    }
  }

  /** The loop reports no error when every item is a string that is not blank. */
  lemma {:induction false} NormalizeEachClean(items: seq<Value>, i: nat, format: string, ex: Expressions)
    requires forall j :: 0 <= j < |items| ==> items[j].Str? && PyText.Strip(items[j].s) != []
    ensures NormalizeEach(items, i, format, ex).1 == []
    decreases |items|
  {
    if items != [] {
      assert forall j :: 0 <= j < |items[1..]| ==> items[1..][j] == items[j + 1];
      NormalizeEachClean(items[1..], i + 1, format, ex);
      assert NormalizeItem(items[0], i, format, ex).1 == [];
    }
  }

  /** A blank string or a value that is not a string makes the loop report an
      error. */
  lemma {:induction false} NormalizeEachReports(items: seq<Value>, i: nat, format: string, ex: Expressions, j: nat)
    requires j < |items| && !(items[j].Str? && PyText.Strip(items[j].s) != [])
    ensures NormalizeEach(items, i, format, ex).1 != []
    decreases |items|
  {
    NormalizeEachCons(items, i, format, ex);
    if j > 0 {
      assert items[1..][j - 1] == items[j];
      NormalizeEachReports(items[1..], i + 1, format, ex, j - 1);
    }
  }

  lemma NormalizeEachCons(items: seq<Value>, i: nat, format: string, ex: Expressions)
    requires items != []
    ensures var first := NormalizeItem(items[0], i, format, ex);
      var rest := NormalizeEach(items[1..], i + 1, format, ex);
      NormalizeEach(items, i, format, ex) == ([first.0] + rest.0, first.1 + rest.1)
  {
  }

  /** What `normalize` answers. `NoCitations` is the early answer for an empty
      input, which has no list of errors. */
  datatype Outcome =
    | Unsupported(error: string)
    | NoCitations(format: string)
    | Batch(citations: seq<Entry>, format: string, total: nat, errors: seq<string>)
    | Crashed(error: string)

  /** `normalize(citations, format_type)`: an unsupported format is refused; an
      empty input gives an empty batch; otherwise each item is normalized in
      order and the batch counts them. A truthy value that cannot be iterated
      fails the whole call. */
  function Normalize(citations: Value, format: string, ex: Expressions): (r: Outcome)
    ensures r.Unsupported? <==> format !in SupportedFormats
    ensures r.Unsupported? ==> r.error == "Unsupported format: " + format + ". Supported: " + PyText.JoinWith(", ", SupportedFormats)
    ensures r.NoCitations? <==> format in SupportedFormats && !Truthy(citations)
    ensures r.Crashed? <==> format in SupportedFormats && Truthy(citations) && Iterate(citations).None?
    ensures r.Batch? ==> r.format == format && r.total == |r.citations| == |Iterate(citations).value|
  {
    if format !in SupportedFormats then
      Unsupported("Unsupported format: " + format + ". Supported: " + PyText.JoinWith(", ", SupportedFormats))
    else if !Truthy(citations) then NoCitations(format)
    else
      match Iterate(citations)
      case None => Crashed("Citation normalization failed: '" + TypeName(citations) + "' object is not iterable")
      case Some(items) =>
        var each := NormalizeEach(items, 0, format, ex);
        Batch(each.0, format, |items|, each.1)
  }

  /** A non-empty list in a supported format: entry `j` is item `j` normalized, and
      the batch reports errors exactly when some item is blank or not a string. */
  lemma NormalizeList(items: seq<Value>, format: string, ex: Expressions, j: nat)
    requires items != [] && j < |items| && format in SupportedFormats
    ensures var r := Normalize(List(items), format, ex);
      r.Batch? && r.total == |items|
      && r.citations[j] == NormalizeItem(items[j], j, format, ex).0
      && (r.errors == [] <==> forall k :: 0 <= k < |items| ==> items[k].Str? && PyText.Strip(items[k].s) != [])
  {
    assert Truthy(List(items));
    NormalizeEachAt(items, 0, format, ex, j);
    if forall k :: 0 <= k < |items| ==> items[k].Str? && PyText.Strip(items[k].s) != [] {
      NormalizeEachClean(items, 0, format, ex);
    } else {
      var k :| 0 <= k < |items| && !(items[k].Str? && PyText.Strip(items[k].s) != []);
      NormalizeEachReports(items, 0, format, ex, k);
    }
  }

  // ---------------------------------------------------------------------------
  // Format checks.

  /** `(dddd)` starts at `i`. */
  predicate ParenYearAt(s: string, i: int) {
    0 <= i && i + 6 <= |s| && s[i] == '(' && FourDigitsAt(s, i + 1) && s[i + 5] == ')'
  }

  /** `re.search(r'\(\d{4}\)', s)`. */
  predicate HasParenYear(s: string) {
    exists i :: 0 <= i < |s| && ParenYearAt(s, i)
  }

  datatype FormatCheck = FormatCheck(isValid: bool, format: string, errors: seq<string>, warnings: seq<string>)

  /** `validate_citation_format`: Bluebook warns about a case citation (one with
      ` v. `) that is not in the standard shape, which `bluebookCase` decides, and
      rejects unbalanced parentheses; APA warns when no year is in parentheses;
      other formats pass as they are. */
  function ValidateCitationFormat(citation: string, format: string, bluebookCase: string -> bool): (r: FormatCheck)
    ensures r.format == format
    ensures r.isValid <==> format != "bluebook" || PyText.CountChar(citation, '(') == PyText.CountChar(citation, ')')
    ensures r.errors == [] <==> r.isValid
    ensures format == "apa" ==> (r.warnings == [] <==> HasParenYear(citation))
    ensures format == "bluebook" ==> (r.warnings == [] <==> !PyText.Contains(citation, " v. ") || bluebookCase(citation))
    ensures format != "bluebook" && format != "apa" ==> r == FormatCheck(true, format, [], [])
  {
    if format == "bluebook" then
      var warnings := if PyText.Contains(citation, " v. ") && !bluebookCase(citation) then ["Case citation may not follow standard Bluebook format"] else [];
      if PyText.CountChar(citation, '(') != PyText.CountChar(citation, ')') then FormatCheck(false, format, ["Unmatched parentheses"], warnings)
      else FormatCheck(true, format, [], warnings)
    else if format == "apa" then
      FormatCheck(true, format, [], if HasParenYear(citation) then [] else ["APA format typically includes year in parentheses"])
    else FormatCheck(true, format, [], [])
  }
}
