/** Python's dynamic values as the server sees them: parsed JSON, request bodies,
    preference trees and agent results. A dict is its insertion-ordered list of
    entries; Python keeps dict keys distinct, which `DistinctKeys` states. */
module Values {
  import opened Wrappers
  import PyText

  datatype Value =
    | Null
    | Bool(b: bool)
    | Int(i: int)
    | Real(r: real)
    | Str(s: string)
    | List(items: seq<Value>)
    | Dict(entries: seq<(string, Value)>)

  type Entries = seq<(string, Value)>

  /** Python's truth value: `None`, `False`, zero and empty containers are false. */
  predicate Truthy(v: Value) {
    match v
    case Null => false
    case Bool(b) => b
    case Int(i) => i != 0
    case Real(r) => r != 0.0
    case Str(s) => s != []
    case List(xs) => xs != []
    case Dict(es) => es != []
  }

  /** `k in d` for a dict with entries `es`. */
  predicate HasKey(es: Entries, k: string) {
    es != [] && (es[0].0 == k || HasKey(es[1..], k))
  }

  /** The keys of a dict, in insertion order. */
  function Keys(es: Entries): (ks: seq<string>)
    ensures |ks| == |es|
    ensures forall i :: 0 <= i < |es| ==> ks[i] == es[i].0
  {
    if es == [] then [] else [es[0].0] + Keys(es[1..])
  }

  /** Python keeps the keys of a dict distinct. */
  predicate DistinctKeys(es: Entries) {
    es == [] || (!HasKey(es[1..], es[0].0) && DistinctKeys(es[1..]))
  }

  /** `d.get(k)` on a dict: the value stored under the first entry with key `k`. */
  function Find(es: Entries, k: string): (r: Option<Value>)
    ensures r.None? <==> !HasKey(es, k)
    ensures r.Some? ==> (k, r.value) in es
  {
    if es == [] then None
    else if es[0].0 == k then Some(es[0].1)
    else Find(es[1..], k)
  }

  /** Lookup in a dict written out entry by entry: the first entry answers for its
      own key and passes every other key on. */
  lemma FindCons(k0: string, v0: Value, es: Entries, k: string)
    ensures Find([(k0, v0)] + es, k) == if k0 == k then Some(v0) else Find(es, k)
  {
    assert ([(k0, v0)] + es)[1..] == es;
  }

  /** Lookup finds the entry at position `i` when no earlier entry has its key. */
  lemma {:induction false} FindAt(es: Entries, i: nat)
    requires i < |es|
    requires forall j :: 0 <= j < i ==> es[j].0 != es[i].0
    ensures Find(es, es[i].0) == Some(es[i].1)
  {
    if i > 0 {
      assert forall j :: 0 <= j < i - 1 ==> es[1..][j] == es[j + 1];
      FindAt(es[1..], i - 1);
    }
  }

  /** The key list holds exactly the keys `HasKey` accepts. */
  lemma {:induction false} KeysHasKey(es: Entries, k: string)
    ensures k in Keys(es) <==> HasKey(es, k)
  {
    if es != [] {
      KeysHasKey(es[1..], k);
    }
  }

  /** A key no entry carries is absent. */
  lemma AbsentKey(es: Entries, k: string)
    requires forall i :: 0 <= i < |es| ==> es[i].0 != k
    ensures !HasKey(es, k)
  {
    KeysHasKey(es, k);
  }

  /** `d[k] = v` on a dict: an existing key keeps its position and takes the new
      value; a new key is appended. */
  function Put(es: Entries, k: string, v: Value): (r: Entries)
    ensures Find(r, k) == Some(v)
    ensures |r| == if HasKey(es, k) then |es| else |es| + 1
  {
    if es == [] then [(k, v)]
    else if es[0].0 == k then [(k, v)] + es[1..]
    else
      var t := Put(es[1..], k, v);
      assert ([es[0]] + t)[1..] == t;
      [es[0]] + t
  }

  /** Assigning a key the value it already holds changes nothing. */
  lemma {:induction false} PutSame(es: Entries, k: string, v: Value)
    requires Find(es, k) == Some(v)
    ensures Put(es, k, v) == es
  {
    if es[0].0 != k {
      PutSame(es[1..], k, v);
      assert [es[0]] + es[1..] == es;
    } else {
      assert [(k, v)] + es[1..] == es;
    }
  }

  /** A key is present after `d[k] = v` exactly when it was present before or is `k`. */
  lemma {:induction false} HasKeyPut(es: Entries, k: string, v: Value, k': string)
    ensures HasKey(Put(es, k, v), k') <==> HasKey(es, k') || k' == k
  {
    if es != [] && es[0].0 != k {
      var r := Put(es, k, v);
      assert r[1..] == Put(es[1..], k, v);
      HasKeyPut(es[1..], k, v, k');
    } else if es != [] {
      var r := Put(es, k, v);
      assert r[1..] == es[1..];
    }
  }

  /** `d[k] = v` keeps the key order: the old key list is a prefix of the new one. */
  lemma {:induction false} KeysPut(es: Entries, k: string, v: Value)
    ensures Keys(es) <= Keys(Put(es, k, v))
  {
    if es != [] {
      var r := Put(es, k, v);
      if es[0].0 == k {
        assert r[1..] == es[1..];
      } else {
        assert r[1..] == Put(es[1..], k, v);
        KeysPut(es[1..], k, v);
      }
    }
  }

  /** Assigning a key that is already present leaves the key list as it was. */
  lemma {:induction false} PutExistingKeys(es: Entries, k: string, v: Value)
    requires HasKey(es, k)
    ensures Keys(Put(es, k, v)) == Keys(es)
  {
    var r := Put(es, k, v);
    if es[0].0 == k {
      assert r[1..] == es[1..];
    } else {
      assert r[1..] == Put(es[1..], k, v);
      PutExistingKeys(es[1..], k, v);
    }
  }

  /** Assigning a new key appends its entry at the end. */
  lemma {:induction false} PutAbsent(es: Entries, k: string, v: Value)
    requires !HasKey(es, k)
    ensures Put(es, k, v) == es + [(k, v)]
  {
    if es != [] {
      PutAbsent(es[1..], k, v);
      assert [es[0]] + (es[1..] + [(k, v)]) == es + [(k, v)];
    }
  }

  /** Assigning a new key appends it to the key list. */
  lemma {:induction false} PutAbsentKeys(es: Entries, k: string, v: Value)
    requires !HasKey(es, k)
    ensures Keys(Put(es, k, v)) == Keys(es) + [k]
  {
    if es != [] {
      var r := Put(es, k, v);
      assert r[1..] == Put(es[1..], k, v);
      PutAbsentKeys(es[1..], k, v);
    }
  }

  /** Assigning one key leaves every other key's presence as it was. */
  lemma HasKeyPutOther(es: Entries, k: string, v: Value, k': string)
    requires k' != k
    ensures HasKey(Put(es, k, v), k') == HasKey(es, k')
  {
    HasKeyPut(es, k, v, k');
  }

  /** A suffix of a dict with distinct keys has distinct keys. */
  lemma {:induction false} DistinctSuffix(es: Entries, i: nat)
    requires DistinctKeys(es) && i <= |es|
    ensures DistinctKeys(es[i..])
  {
    if i > 0 {
      assert es[1..][i - 1..] == es[i..];
      DistinctSuffix(es[1..], i - 1);
    }
  }

  /** Looking a key up in a suffix: the suffix's first entry, then the rest. */
  lemma SuffixStep(es: Entries, i: nat, k: string)
    requires i < |es|
    ensures HasKey(es[i..], k) <==> es[i].0 == k || HasKey(es[i + 1..], k)
    ensures Find(es[i..], k) == if es[i].0 == k then Some(es[i].1) else Find(es[i + 1..], k)
  {
    assert es[i..][0] == es[i] && es[i..][1..] == es[i + 1..];
  }

  /** Assigning one key leaves every other key's value as it was. */
  lemma {:induction false} FindPutOther(es: Entries, k: string, v: Value, k': string)
    requires k' != k
    ensures Find(Put(es, k, v), k') == Find(es, k')
  {
    if es != [] {
      var r := Put(es, k, v);
      if es[0].0 == k {
        assert r[1..] == es[1..];
      } else {
        assert r[1..] == Put(es[1..], k, v);
        FindPutOther(es[1..], k, v, k');
      }
    }
  }

  lemma {:induction false} PutKeepsDistinct(es: Entries, k: string, v: Value)
    requires DistinctKeys(es)
    ensures DistinctKeys(Put(es, k, v))
  {
    if es != [] {
      var r := Put(es, k, v);
      if es[0].0 == k {
        assert r[1..] == es[1..];
      } else {
        assert r[1..] == Put(es[1..], k, v);
        PutKeepsDistinct(es[1..], k, v);
        HasKeyPut(es[1..], k, v, es[0].0);
      }
    }
  }

  /** `d.update(u)`: every entry of `u` is assigned in order. */
  function Update(es: Entries, us: Entries): (r: Entries)
    decreases |us|
  {
    if us == [] then es else Update(Put(es, us[0].0, us[0].1), us[1..])
  }

  /** After `d.update(u)` a key reads its value in `u` when `u` has it, and its old
      value otherwise. */
  lemma {:induction false} FindUpdate(es: Entries, us: Entries, k: string)
    requires DistinctKeys(us)
    ensures Find(Update(es, us), k) == if HasKey(us, k) then Find(us, k) else Find(es, k)
    decreases |us|
  {
    if us != [] {
      var es' := Put(es, us[0].0, us[0].1);
      FindUpdate(es', us[1..], k);
      if k != us[0].0 {
        FindPutOther(es, us[0].0, us[0].1, k);
      }
    }
  }

  /** The keys after `d.update(u)`: a key is present exactly when it was present
      before or `u` has it, and the old keys keep their order at the front. */
  lemma {:induction false} KeysUpdate(es: Entries, us: Entries, k: string)
    ensures HasKey(Update(es, us), k) <==> HasKey(es, k) || HasKey(us, k)
    ensures Keys(es) <= Keys(Update(es, us))
    decreases |us|
  {
    if us != [] {
      var es' := Put(es, us[0].0, us[0].1);
      HasKeyPut(es, us[0].0, us[0].1, k);
      KeysPut(es, us[0].0, us[0].1);
      KeysUpdate(es', us[1..], k);
    }
  }

  lemma {:induction false} UpdateKeepsDistinct(es: Entries, us: Entries)
    requires DistinctKeys(es)
    ensures DistinctKeys(Update(es, us))
    decreases |us|
  {
    if us != [] {
      PutKeepsDistinct(es, us[0].0, us[0].1);
      UpdateKeepsDistinct(Put(es, us[0].0, us[0].1), us[1..]);
    }
  }

  /** Python's `k in v` for a string `k`: key membership in a dict, element
      membership in a list, substring test in a string; any other value raises
      `TypeError`, which is `None` here. */
  function Has(v: Value, k: string): (r: Option<bool>)
    ensures r.Some? <==> v.Dict? || v.List? || v.Str?
    ensures v.Dict? ==> r == Some(HasKey(v.entries, k))
    ensures v.List? ==> r == Some(Str(k) in v.items)
  {
    match v
    case Dict(es) => Some(HasKey(es, k))
    case List(xs) => Some(Str(k) in xs)
    case Str(s) => Some(PyText.Contains(s, k))
    case _ => None
  }

  /** `v.get(k, default)`: defined on dicts only (anything else raises
      `AttributeError`, `None` here). */
  function Get(v: Value, k: string, default: Value): (r: Option<Value>)
    ensures r.Some? <==> v.Dict?
    ensures v.Dict? && HasKey(v.entries, k) ==> r == Find(v.entries, k)
    ensures v.Dict? && !HasKey(v.entries, k) ==> r == Some(default)
  {
    match v
    case Dict(es) => Some(Find(es, k).GetOr(default))
    case _ => None
  }

  /** `v[k]` with a string key: defined on a dict holding `k`; anything else raises. */
  function Index(v: Value, k: string): (r: Option<Value>)
    ensures r.Some? <==> v.Dict? && HasKey(v.entries, k)
    ensures r.Some? ==> r == Find(v.entries, k)
  {
    match v
    case Dict(es) => Find(es, k)
    case _ => None
  }

  /** `len(v)`: defined on strings, lists and dicts; anything else raises `TypeError`. */
  function PyLen(v: Value): (r: Option<nat>)
    ensures r.Some? <==> v.Str? || v.List? || v.Dict?
    ensures r.Some? ==> (r.value == 0 <==> !Truthy(v))
  {
    match v
    case Str(s) => Some(|s|)
    case List(xs) => Some(|xs|)
    case Dict(es) => Some(|es|)
    case _ => None
  }

  /** Lists and dicts cannot be dict keys: testing them against a dict raises. */
  predicate Unhashable(v: Value) {
    v.List? || v.Dict?
  }

  /** The strings of a list value, in order, skipping non-strings. */
  function StrItems(xs: seq<Value>): (r: seq<string>)
    ensures |r| <= |xs|
    ensures forall s :: s in r <==> Str(s) in xs
  {
    if xs == [] then []
    else
      var rest := StrItems(xs[1..]);
      assert xs == [xs[0]] + xs[1..];
      if xs[0].Str? then [xs[0].s] + rest else rest
  }

  /** A list value holding exactly the given strings. */
  function StrList(ss: seq<string>): (v: Value)
    ensures v.List? && |v.items| == |ss|
    ensures forall i :: 0 <= i < |ss| ==> v.items[i] == Str(ss[i])
  {
    List(seq(|ss|, i requires 0 <= i < |ss| => Str(ss[i])))
  }

  /** `str(v)`: strings, integers, booleans and `None` as Python writes them;
      `show` renders floats, lists and dicts as Python's `str()` does. */
  function AsText(v: Value, show: Value -> string): string {
    match v
    case Str(s) => s
    case Int(i) => PyText.IntToString(i)
    case Bool(b) => if b then "True" else "False"
    case Null => "None"
    case _ => show(v)
  }

  /** `type(v).__name__`, as it appears in Python's error messages. */
  function TypeName(v: Value): string {
    match v
    case Null => "NoneType"
    case Bool(_) => "bool"
    case Int(_) => "int"
    case Real(_) => "float"
    case Str(_) => "str"
    case List(_) => "list"
    case Dict(_) => "dict"
  }

  /** The message of the `AttributeError` that `.strip()` raises on a value that is
      not a string. */
  function NoStripMessage(v: Value): string {
    "'" + TypeName(v) + "' object has no attribute 'strip'"
  }

  /** `isinstance(v, (int, float))`, which in Python includes `bool`; the number as a real. */
  function AsNumber(v: Value): (r: Option<real>)
    ensures r.Some? <==> v.Bool? || v.Int? || v.Real?
    ensures v.Int? ==> r == Some(v.i as real)
    ensures v.Real? ==> r == Some(v.r)
    ensures v.Bool? ==> r == Some(if v.b then 1.0 else 0.0)
  {
    match v
    case Bool(b) => Some(if b then 1.0 else 0.0)
    case Int(i) => Some(i as real)
    case Real(r) => Some(r)
    case _ => None
  }

  /** The items a `for` loop over a value visits: a list's elements, a string's
      characters, a dict's keys. Any other value is not iterable and raises. */
  function Iterate(v: Value): (r: Option<seq<Value>>)
    ensures r.Some? <==> v.List? || v.Str? || v.Dict?
    ensures v.List? ==> r == Some(v.items)
    ensures r.Some? ==> PyLen(v) == Some(|r.value|)
  {
    match v
    case List(xs) => Some(xs)
    case Str(s) => Some(seq(|s|, i requires 0 <= i < |s| => Str([s[i]])))
    case Dict(es) => Some(seq(|es|, i requires 0 <= i < |es| => Str(es[i].0)))
    case _ => None
  }
}
