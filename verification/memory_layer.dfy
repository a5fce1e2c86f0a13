/** The memory layer (server/layers/memory_layer.py): user preferences merged over
    a default tree, updated and reset by category, and the current session's
    context and event history.

    Preferences are values here: the source's shallow `.copy()` of the defaults,
    which lets later updates write through into the default tree, is not
    modelled. Saving to disk is a boolean outcome and timestamps are parameters. */
module MemoryLayer {
  import opened Wrappers
  import opened Values

  /** `DEFAULT_PREFERENCES`. */
  const DefaultPreferences: Entries := [
    ("general", Dict([
      ("output_format", Str("plain_text")),
      ("language", Str("en")),
      ("verbosity_level", Str("standard")),
      ("auto_generate_brief", Bool(false)),
      ("save_analysis_history", Bool(true))])),
    ("llm", Dict([
      ("primary_model", Str("gemini")),
      ("fallback_model", Str("ollama")),
      ("temperature", Real(0.7)),
      ("max_tokens", Int(8192)),
      ("enable_fallback", Bool(true))])),
    ("citation", Dict([
      ("format", Str("bluebook")),
      ("include_citations_in_brief", Bool(true)),
      ("normalize_citations", Bool(true))])),
    ("integration", Dict([
      ("legal_apis", Dict([
        ("courtlistener_enabled", Bool(false)),
        ("courtlistener_api_key", Str("")),
        ("caselaw_access_enabled", Bool(false)),
        ("caselaw_access_api_key", Str(""))])),
      ("export_destinations", Dict([
        ("local_download", Bool(true)),
        ("google_drive", Bool(false)),
        ("dropbox", Bool(false))]))])),
    ("privacy", Dict([
      ("store_documents", Bool(false)),
      ("store_analysis_results", Bool(true)),
      ("anonymize_data", Bool(false))]))]

  // ---------------------------------------------------------------------------
  // Merging loaded preferences over the defaults.

  /** One key of `_merge_preferences`: a dict over a dict merges recursively; any
      other loaded value replaces the default. */
  function MergeValue(current: Value, loaded: Value): Value
    decreases loaded, 1
  {
    if loaded.Dict? && current.Dict? then Dict(MergeFrom(current.entries, loaded, 0)) else loaded
  }

  /** One loaded entry applied to the defaults: a key the defaults lack is
      dropped, a known key takes the merged value. */
  function MergeStep(defaults: Entries, loaded: Value, i: nat): Entries
    requires loaded.Dict? && i < |loaded.entries|
    decreases loaded, 0, 0
  {
    var (k, v) := loaded.entries[i];
    assert loaded.entries[i] in loaded.entries;
    match Find(defaults, k)
    case None => defaults
    case Some(current) => Put(defaults, k, MergeValue(current, v))
  }

  /** `_merge_preferences(defaults, loaded)` from the `i`-th loaded entry on. */
  function MergeFrom(defaults: Entries, loaded: Value, i: nat): Entries
    requires loaded.Dict? && i <= |loaded.entries|
    decreases loaded, 0, |loaded.entries| - i + 1
  {
    if i == |loaded.entries| then defaults
    else MergeFrom(MergeStep(defaults, loaded, i), loaded, i + 1)
  }

  function MergePreferences(defaults: Entries, loaded: Value): Entries
    requires loaded.Dict?
  {
    MergeFrom(defaults, loaded, 0)
  }

  /** One step keeps the default keys. */
  lemma MergeStepKeys(defaults: Entries, loaded: Value, i: nat)
    requires loaded.Dict? && i < |loaded.entries|
    ensures Keys(MergeStep(defaults, loaded, i)) == Keys(defaults)
  {
    var (k, v) := loaded.entries[i];
    if Find(defaults, k).Some? {
      PutExistingKeys(defaults, k, MergeValue(Find(defaults, k).value, v));
    }
  }

  /** The merge keeps exactly the default keys, in the default order. */
  lemma {:induction false} MergeKeepsKeys(defaults: Entries, loaded: Value, i: nat)
    requires loaded.Dict? && i <= |loaded.entries|
    ensures Keys(MergeFrom(defaults, loaded, i)) == Keys(defaults)
    decreases |loaded.entries| - i
  {
    if i < |loaded.entries| {
      MergeStepKeys(defaults, loaded, i);
      MergeKeepsKeys(MergeStep(defaults, loaded, i), loaded, i + 1);
    }
  }

  /** What the merge stores under each key, for a loaded dict with distinct keys:
      nothing for keys the defaults lack, the default for keys not loaded, and
      otherwise the loaded value, merged into the default when both are dicts. */
  lemma {:induction false} MergeFind(defaults: Entries, loaded: Value, i: nat, k: string)
    requires loaded.Dict? && i <= |loaded.entries| && DistinctKeys(loaded.entries[i..])
    ensures Find(MergeFrom(defaults, loaded, i), k) ==
      if HasKey(defaults, k) && HasKey(loaded.entries[i..], k)
      then Some(MergeValue(Find(defaults, k).value, Find(loaded.entries[i..], k).value))
      else Find(defaults, k)
    decreases |loaded.entries| - i
  {
    var es := loaded.entries;
    if i < |es| {
      var (k0, v0) := es[i];
      SuffixStep(es, i, k);
      assert es[i..][1..] == es[i + 1..];
      var next := MergeStep(defaults, loaded, i);
      MergeFind(next, loaded, i + 1, k);
      if Find(defaults, k0).Some? {
        var nv := MergeValue(Find(defaults, k0).value, v0);
        if k != k0 {
          FindPutOther(defaults, k0, nv, k);
          HasKeyPutOther(defaults, k0, nv, k);
        } else {
          assert !HasKey(es[i + 1..], k0);
          HasKeyPut(defaults, k0, nv, k);
        }
      }
    }
  }

  /** `_load_preferences`: no file gives the defaults; a file is merged over the
      defaults when it decodes to a dict, and otherwise ignored (the source's
      `except` branch). */
  function LoadPreferences(file: Option<Value>): (prefs: Entries)
    ensures Keys(prefs) == Keys(DefaultPreferences)
  {
    match file
    case Some(loaded) =>
      if loaded.Dict? then
        MergeKeepsKeys(DefaultPreferences, loaded, 0);
        MergePreferences(DefaultPreferences, loaded)
      else DefaultPreferences
    case None => DefaultPreferences
  }

  // ---------------------------------------------------------------------------
  // The layer's state and its operations.

  /** The preferences and the current session's context and history. */
  datatype Memory = Memory(preferences: Entries, context: Entries, history: seq<Value>)

  /** What an update or reset reports: the preferences it returns, or an error. */
  datatype Outcome = Done(preferences: Value) | Failed(error: string)

  /** `get_preferences(category)`: the category's value (an empty dict when
      unknown) for a non-empty category, else the whole tree. */
  function GetPreferences(m: Memory, category: Option<string>): (r: Value)
    ensures category.Some? && category.value != [] && !HasKey(m.preferences, category.value) ==> r == Dict([])
    ensures category.Some? && category.value != [] && HasKey(m.preferences, category.value) ==>
      r == Find(m.preferences, category.value).value
    ensures category.None? || category.value == [] ==> r == Dict(m.preferences)
  {
    match category
    case Some(c) => if c != [] then Find(m.preferences, c).GetOr(Dict([])) else Dict(m.preferences)
    case None => Dict(m.preferences)
  }

  /** The key/value pair `dict.update` reads from one element of a non-dict
      argument: the element must iterate to exactly two items, the first being
      the key. None where the source raises (an element that is not iterable, a
      wrong item count, an unhashable key). */
  function PairOf(element: Value): Option<(string, Value)> {
    match Iterate(element)
    case Some(items) => if |items| == 2 && items[0].Str? then Some((items[0].s, items[1])) else None
    case None => None
  }

  /** The pairs `dict.update` inserts, in order, before the first element that is
      not a pair: the source inserts them one at a time, so those ahead of a bad
      element are already in place when it raises. */
  function PairsPrefix(elements: seq<Value>): (r: Entries)
    ensures |r| <= |elements|
    ensures forall i :: 0 <= i < |r| ==> PairOf(elements[i]) == Some(r[i])
    ensures |r| < |elements| ==> PairOf(elements[|r|]).None?
  {
    if elements == [] then []
    else
      match PairOf(elements[0])
      case None => []
      case Some(p) => [p] + PairsPrefix(elements[1..])
  }

  /** The prefix runs exactly up to the first element that is not a pair. */
  lemma {:induction false} PairsPrefixStops(elements: seq<Value>, j: nat)
    requires j <= |elements|
    requires forall i :: 0 <= i < j ==> PairOf(elements[i]).Some?
    requires j < |elements| ==> PairOf(elements[j]).None?
    ensures |PairsPrefix(elements)| == j
    decreases j
  {
    if j > 0 {
      assert PairOf(elements[0]).Some?;
      forall i | 0 <= i < j - 1
        ensures PairOf(elements[1..][i]).Some?
      {
        assert elements[1..][i] == elements[i + 1];
      }
      assert j - 1 < |elements[1..]| ==> elements[1..][j - 1] == elements[j];
      PairsPrefixStops(elements[1..], j - 1);
    }
  }

  /** `update_preferences(category, updates)`, with `saved` the outcome of writing
      the file. An unknown category is refused; any category value other than a
      dict is replaced. A dict category is updated the way `dict.update` does it:
      from a dict's entries, or from any other iterable whose elements are
      two-item key/value iterables. A value that is not iterable raises before
      anything changes; a bad element raises after the pairs ahead of it have
      been inserted. Either error is reported as "Error updating preferences",
      and the in-memory change stays. A failed save also keeps the change. */
  function UpdatePreferences(m: Memory, category: string, updates: Value, saved: bool): (r: (Memory, Outcome))
    ensures !HasKey(m.preferences, category) ==> r == (m, Failed("Invalid category: " + category))
    ensures r.0.context == m.context && r.0.history == m.history
    ensures r.1.Done? ==> saved && HasKey(m.preferences, category) && Find(r.0.preferences, category) == Some(r.1.preferences)
  {
    if !HasKey(m.preferences, category) then (m, Failed("Invalid category: " + category))
    else
      var current := Find(m.preferences, category).value;
      if !current.Dict? then Store(m, category, updates, saved)
      else if updates.Dict? then Store(m, category, Dict(Update(current.entries, updates.entries)), saved)
      else
        match Iterate(updates)
        case None => (m, Failed("Error updating preferences"))
        case Some(elements) =>
          var pairs := PairsPrefix(elements);
          var value := Dict(Update(current.entries, pairs));
          if |pairs| < |elements| then (m.(preferences := Put(m.preferences, category, value)), Failed("Error updating preferences"))
          else Store(m, category, value, saved)
  }

  /** Writes a category's new value and reports it, or the failed save. */
  function Store(m: Memory, category: string, value: Value, saved: bool): (Memory, Outcome) {
    (m.(preferences := Put(m.preferences, category, value)), if saved then Done(value) else Failed("Failed to save preferences"))
  }

  /** The list form of an update: a list of `[key, value]` pairs acts exactly as
      the dict of those pairs. */
  lemma UpdateWithPairList(m: Memory, category: string, es: Entries, saved: bool)
    requires HasKey(m.preferences, category) && Find(m.preferences, category).value.Dict?
    ensures var pairs := List(seq(|es|, i requires 0 <= i < |es| => List([Str(es[i].0), es[i].1])));
      UpdatePreferences(m, category, pairs, saved) == UpdatePreferences(m, category, Dict(es), saved)
  {
    var elements := seq(|es|, i requires 0 <= i < |es| => List([Str(es[i].0), es[i].1]));
    forall i | 0 <= i < |es|
      ensures PairOf(elements[i]) == Some(es[i])
    {
      assert Iterate(elements[i]) == Some([Str(es[i].0), es[i].1]);
    }
    var r := PairsPrefix(elements);
    PairsPrefixStops(elements, |elements|);
    assert r == es by {
      forall i | 0 <= i < |r|
        ensures r[i] == es[i]
      {
        assert PairOf(elements[i]) == Some(r[i]);
      }
    }
  }

  /** An update whose `i`-th element is not a pair is refused, and the pairs
      ahead of it stay applied in memory. */
  lemma UpdateStopsAtBadElement(m: Memory, category: string, elements: seq<Value>, saved: bool, j: nat)
    requires HasKey(m.preferences, category) && Find(m.preferences, category).value.Dict?
    requires j < |elements| && PairOf(elements[j]).None?
    requires forall i :: 0 <= i < j ==> PairOf(elements[i]).Some?
    ensures var (m', r) := UpdatePreferences(m, category, List(elements), saved);
      var before := Find(m.preferences, category).value.entries;
      r == Failed("Error updating preferences")
      && Find(m'.preferences, category) == Some(Dict(Update(before, seq(j, i requires 0 <= i < j => PairOf(elements[i]).value))))
  {
    var r := PairsPrefix(elements);
    PairsPrefixStops(elements, j);
    assert r == seq(j, i requires 0 <= i < j => PairOf(elements[i]).value);
  }

  /** An unknown category is refused and nothing changes. */
  lemma UpdateUnknownCategory(m: Memory, category: string, updates: Value, saved: bool)
    requires !HasKey(m.preferences, category)
    ensures UpdatePreferences(m, category, updates, saved) == (m, Failed("Invalid category: " + category))
  {
  }

  /** Updating a dict category with a dict (with distinct keys): the updated keys
      read their new values, the category's other keys keep theirs, every other
      category is untouched, the category list is unchanged, and the session is
      untouched; the reply is the new category value unless saving failed. */
  lemma UpdateDictCategory(m: Memory, category: string, updates: Value, saved: bool, key: string, other: string)
    requires HasKey(m.preferences, category) && Find(m.preferences, category).value.Dict?
    requires updates.Dict? && DistinctKeys(updates.entries)
    requires other != category
    ensures var (m', r) := UpdatePreferences(m, category, updates, saved);
      var before := Find(m.preferences, category).value.entries;
      var now := Find(m'.preferences, category).value;
      now.Dict?
      && Find(now.entries, key) == (if HasKey(updates.entries, key) then Find(updates.entries, key) else Find(before, key))
      && Find(m'.preferences, other) == Find(m.preferences, other)
      && Keys(m'.preferences) == Keys(m.preferences)
      && m'.context == m.context && m'.history == m.history
      && (r.Done? <==> saved)
      && (saved ==> r.preferences == now)
  {
    var before := Find(m.preferences, category).value.entries;
    var value := Dict(Update(before, updates.entries));
    FindUpdate(before, updates.entries, key);
    FindPutOther(m.preferences, category, value, other);
    PutExistingKeys(m.preferences, category, value);
  }

  /** `reset_preferences(category)`: a non-empty category known to the defaults is
      restored to its default value; an unknown one is refused; no category
      restores the whole tree. */
  function ResetPreferences(m: Memory, category: Option<string>, saved: bool): (r: (Memory, Outcome))
    ensures r.0.context == m.context && r.0.history == m.history
    ensures r.1.Done? <==> saved && (category.None? || category.value == [] || HasKey(DefaultPreferences, category.value))
    ensures r.1.Done? ==> r.1.preferences == Dict(r.0.preferences)
  {
    var target :=
      match category
      case Some(c) =>
        if c == [] then Some(DefaultPreferences)
        else if HasKey(DefaultPreferences, c) then Some(Put(m.preferences, c, Find(DefaultPreferences, c).value))
        else None
      case None => Some(DefaultPreferences);
    match target
    case None => (m, Failed("Invalid category: " + category.value))
    case Some(prefs) =>
      var m' := m.(preferences := prefs);
      (m', if saved then Done(Dict(prefs)) else Failed("Failed to save preferences"))
  }

  /** Resetting one known category restores exactly that category. */
  lemma ResetOneCategory(m: Memory, category: string, saved: bool, other: string)
    requires category != [] && HasKey(DefaultPreferences, category) && other != category
    ensures var (m', _) := ResetPreferences(m, Some(category), saved);
      Find(m'.preferences, category) == Find(DefaultPreferences, category)
      && Find(m'.preferences, other) == Find(m.preferences, other)
  {
    FindPutOther(m.preferences, category, Find(DefaultPreferences, category).value, other);
  }

  /** Resetting with no category restores the defaults; an unknown category is
      refused and nothing changes. */
  lemma ResetAllAndUnknown(m: Memory, category: string, saved: bool)
    ensures ResetPreferences(m, None, saved).0.preferences == DefaultPreferences
    ensures category != [] && !HasKey(DefaultPreferences, category) ==>
      ResetPreferences(m, Some(category), saved) == (m, Failed("Invalid category: " + category))
  {
  }

  /** The category list is an invariant of updates: no update adds or removes a
      category. */
  lemma UpdateKeepsCategories(m: Memory, category: string, updates: Value, saved: bool)
    ensures Keys(UpdatePreferences(m, category, updates, saved).0.preferences) == Keys(m.preferences)
  {
    if HasKey(m.preferences, category) {
      var current := Find(m.preferences, category).value;
      if !current.Dict? {
        PutExistingKeys(m.preferences, category, updates);
      } else if updates.Dict? {
        PutExistingKeys(m.preferences, category, Dict(Update(current.entries, updates.entries)));
      } else if Iterate(updates).Some? {
        PutExistingKeys(m.preferences, category, Dict(Update(current.entries, PairsPrefix(Iterate(updates).value))));
      }
    }
  }

  /** Starting from the default categories, resets never add or remove one. */
  lemma ResetKeepsCategories(m: Memory, reset: Option<string>, saved: bool)
    requires Keys(m.preferences) == Keys(DefaultPreferences)
    ensures Keys(ResetPreferences(m, reset, saved).0.preferences) == Keys(DefaultPreferences)
  {
    if reset.Some? && reset.value != [] && HasKey(DefaultPreferences, reset.value) {
      var c := reset.value;
      KeysHasKey(DefaultPreferences, c);
      KeysHasKey(m.preferences, c);
      PutExistingKeys(m.preferences, c, Find(DefaultPreferences, c).value);
    }
  }

  // ---------------------------------------------------------------------------
  // The session.

  /** `get_session_context()`: a copy of the context. */
  function GetSessionContext(m: Memory): Entries {
    m.context
  }

  /** `update_session_context(updates)`. */
  function UpdateSessionContext(m: Memory, updates: Entries): (m': Memory)
    ensures m'.preferences == m.preferences && m'.history == m.history
  {
    m.(context := Update(m.context, updates))
  }

  /** `add_to_session_history(event)`: the event, stamped with `timestamp`, is
      appended. */
  function AddToSessionHistory(m: Memory, event: Entries, timestamp: string): (m': Memory)
    ensures |m'.history| == |m.history| + 1 && m'.history[..|m.history|] == m.history
    ensures m'.history[|m.history|].Dict?
    ensures Find(m'.history[|m.history|].entries, "timestamp") == Some(Str(timestamp))
    ensures m'.preferences == m.preferences && m'.context == m.context
  {
    m.(history := m.history + [Dict(Put(event, "timestamp", Str(timestamp)))])
  }

  /** `get_session_history()`: a copy of the history. */
  function GetSessionHistory(m: Memory): seq<Value> {
    m.history
  }

  /** `clear_session()`: a fresh session with an empty context and history. */
  function ClearSession(m: Memory): (m': Memory)
    ensures m'.context == [] && m'.history == [] && m'.preferences == m.preferences
  {
    m.(context := [], history := [])
  }

  /** Reading the context back after an update gives each updated key its new
      value and every other key its old one. */
  lemma SessionContextRoundTrip(m: Memory, updates: Entries, k: string)
    requires DistinctKeys(updates)
    ensures Find(GetSessionContext(UpdateSessionContext(m, updates)), k)
      == if HasKey(updates, k) then Find(updates, k) else Find(GetSessionContext(m), k)
  {
    FindUpdate(m.context, updates, k);
  }
}
