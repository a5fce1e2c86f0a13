/** Python `str` operations the server relies on, over `string` = `seq<char>`.
    Case mapping covers ASCII letters only; every other character maps to itself. */
module PyText {
  import opened Wrappers

  /** Python's `str.isspace()` for one character: ASCII whitespace, the information
      separators U+001C..U+001F and the Unicode space characters. This is also the
      set `str.split()`, `str.strip()` and the regular-expression class `\s` use. */
  predicate IsSpace(c: char) {
    c == ' ' || ('\t' <= c <= '\r') || ('\U{1C}' <= c <= '\U{1F}') || c == '\U{85}'
    || c == '\U{A0}' || c == '\U{1680}' || ('\U{2000}' <= c <= '\U{200A}') || c == '\U{2028}'
    || c == '\U{2029}' || c == '\U{202F}' || c == '\U{205F}' || c == '\U{3000}'
  }

  predicate AllSpace(s: string) {
    forall i :: 0 <= i < |s| ==> IsSpace(s[i])
  }

  /** `s.lstrip()` */
  function TrimLeft(s: string): (r: string)
    ensures |r| <= |s| && r == s[|s| - |r|..]
    ensures r == [] || !IsSpace(r[0])
    ensures AllSpace(s[..|s| - |r|])
  {
    if s != [] && IsSpace(s[0]) then TrimLeft(s[1..]) else s
  }

  /** `s.rstrip()` */
  function TrimRight(s: string): (r: string)
    ensures |r| <= |s| && r == s[..|r|]
    ensures r == [] || !IsSpace(r[|r| - 1])
    ensures AllSpace(s[|r|..])
  {
    if s != [] && IsSpace(s[|s| - 1]) then TrimRight(s[..|s| - 1]) else s
  }

  /** `s.strip()`: the slice of `s` left once leading and trailing whitespace is cut;
      it starts where `s.lstrip()` starts. */
  function Strip(s: string): (r: string)
    ensures r == [] || (!IsSpace(r[0]) && !IsSpace(r[|r| - 1]))
    ensures var i := |s| - |TrimLeft(s)|;
      i + |r| <= |s| && r == s[i..i + |r|] && AllSpace(s[..i]) && AllSpace(s[i + |r|..])
  {
    var t := TrimLeft(s);
    var r := TrimRight(t);
    StripSlices(s, t, r);
    r
  }

  lemma StripSlices(s: string, t: string, r: string)
    requires |t| <= |s| && t == s[|s| - |t|..]
    requires |r| <= |t| && r == t[..|r|]
    ensures var i := |s| - |t|; s[i..i + |r|] == r && s[i + |r|..] == t[|r|..]
  {
  }

  /** Stripping keeps every character that is not a blank. */
  lemma StripKeeps(s: string, j: int)
    requires 0 <= j < |s| && !IsSpace(s[j])
    ensures s[j] in Strip(s)
  {
    var r := Strip(s);
    var i := |s| - |TrimLeft(s)|;
    assert i <= j < i + |r|;
    assert r[j - i] == s[j];
  }

  lemma StripEmptyIffAllSpace(s: string)
    ensures Strip(s) == [] <==> AllSpace(s)
  {
  }

  lemma StripIdempotent(s: string)
    ensures Strip(Strip(s)) == Strip(s)
  {
  }

  /** Length of the leading run of non-space characters. */
  function WordLen(s: string): (n: nat)
    ensures n <= |s|
    ensures forall i :: 0 <= i < n ==> !IsSpace(s[i])
    ensures n == |s| || IsSpace(s[n])
  {
    if s == [] || IsSpace(s[0]) then 0 else 1 + WordLen(s[1..])
  }

  /** A word of `str.split()`: non-empty, no whitespace. */
  predicate IsWord(w: string) {
    w != [] && forall i :: 0 <= i < |w| ==> !IsSpace(w[i])
  }

  /** `s.split()` with no separator: the maximal runs of non-space characters, in order. */
  function Words(s: string): (ws: seq<string>)
    ensures forall i :: 0 <= i < |ws| ==> IsWord(ws[i])
    decreases |s|
  {
    if s == [] then []
    else if IsSpace(s[0]) then Words(s[1..])
    else
      var n := WordLen(s);
      [s[..n]] + Words(s[n..])
  }

  /** `len(s.split())` */
  function WordCount(s: string): nat {
    |Words(s)|
  }

  /** `" ".join(ws)` */
  function JoinSpace(ws: seq<string>): string {
    if ws == [] then []
    else if |ws| == 1 then ws[0]
    else ws[0] + " " + JoinSpace(ws[1..])
  }

  lemma {:induction false} WordLenOfWord(w: string, rest: string)
    requires IsWord(w)
    requires rest == [] || IsSpace(rest[0])
    ensures WordLen(w + rest) == |w|
    decreases |w|
  {
    assert (w + rest)[0] == w[0];
    if |w| > 1 {
      assert (w + rest)[1..] == w[1..] + rest;
      WordLenOfWord(w[1..], rest);
    } else {
      assert (w + rest)[1..] == rest;
    }
  }

  lemma WordsOfWordThen(w: string, rest: string)
    requires IsWord(w)
    requires rest == [] || IsSpace(rest[0])
    ensures Words(w + rest) == [w] + Words(rest)
  {
    var s := w + rest;
    assert s[0] == w[0];
    WordLenOfWord(w, rest);
    assert s[..|w|] == w;
    assert s[|w|..] == rest;
  }

  lemma {:induction false} WordsOfAllSpace(t: string)
    requires AllSpace(t)
    ensures Words(t) == []
    decreases |t|
  {
    if t != [] {
      WordsOfAllSpace(t[1..]);
    }
  }

  /** Trailing whitespace adds no words. */
  lemma {:induction false} WordsAppendSpace(x: string, t: string)
    requires AllSpace(t)
    ensures Words(x + t) == Words(x)
    decreases |x|
  {
    if x == [] {
      assert x + t == t;
      WordsOfAllSpace(t);
    } else if IsSpace(x[0]) {
      assert (x + t)[0] == x[0];
      assert (x + t)[1..] == x[1..] + t;
      WordsAppendSpace(x[1..], t);
    } else {
      var n := WordLen(x);
      var w := x[..n];
      assert x + t == w + (x[n..] + t);
      WordsOfWordThen(w, x[n..] + t);
      WordsAppendSpace(x[n..], t);
    }
  }

  /** Stripping the ends keeps the words: `s.strip().split() == s.split()`. */
  lemma WordsOfStrip(s: string)
    ensures Words(Strip(s)) == Words(s)
  {
    var t := TrimLeft(s);
    var r := TrimRight(t);
    assert t == r + t[|r|..];
    WordsAppendSpace(r, t[|r|..]);
    WordsOfTrimLeft(s);
  }

  /** `re.sub(r'\s+', ' ', s.strip()).strip()` keeps the words of `s`. */
  lemma WordsOfCleanup(s: string)
    ensures Words(Strip(Collapse(Strip(s)))) == Words(s)
  {
    WordsOfStrip(Collapse(Strip(s)));
    WordsOfCollapse(Strip(s));
    WordsOfStrip(s);
  }

  /** Splitting the space-joined list of words gives the words back. */
  lemma {:induction false} WordsOfJoinSpace(ws: seq<string>)
    requires forall i :: 0 <= i < |ws| ==> IsWord(ws[i])
    ensures Words(JoinSpace(ws)) == ws
  {
    if ws == [] {
    } else if |ws| == 1 {
      WordsOfWordThen(ws[0], []);
      assert ws[0] + [] == ws[0];
    } else {
      var j := JoinSpace(ws[1..]);
      var rest := " " + j;
      assert JoinSpace(ws) == ws[0] + rest;
      WordsOfWordThen(ws[0], rest);
      assert rest[1..] == j;
      assert Words(rest) == Words(j);
      WordsOfJoinSpace(ws[1..]);
    }
  }

  /** `re.sub(r'\s+', ' ', s)`: every maximal whitespace run becomes one space. */
  function Collapse(s: string): (r: string)
    ensures |r| <= |s|
    ensures (r == []) == (s == [])
    ensures s != [] ==> (IsSpace(r[0]) <==> IsSpace(s[0]))
    ensures s != [] && !IsSpace(s[0]) ==> r[0] == s[0]
    decreases |s|
  {
    if s == [] then []
    else if IsSpace(s[0]) then " " + Collapse(TrimLeft(s[1..]))
    else [s[0]] + Collapse(s[1..])
  }

  lemma {:induction false} WordsOfTrimLeft(s: string)
    ensures Words(TrimLeft(s)) == Words(s)
  {
    if s != [] && IsSpace(s[0]) {
      WordsOfTrimLeft(s[1..]);
    }
  }

  /** How `Words` sees one more leading non-space character. */
  lemma WordsCons(c: char, x: string)
    requires !IsSpace(c)
    ensures x == [] || IsSpace(x[0]) ==> Words([c] + x) == [[c]] + Words(x)
    ensures x != [] && !IsSpace(x[0]) ==>
      Words(x) != [] && Words([c] + x) == [[c] + Words(x)[0]] + Words(x)[1..]
  {
    var s := [c] + x;
    assert s[0] == c;
    assert s[1..] == x;
    if x == [] || IsSpace(x[0]) {
      WordsOfWordThen([c], x);
    } else {
      var n := WordLen(x);
      assert WordLen(s) == 1 + n;
      assert s[..1 + n] == [c] + x[..n];
      assert s[1 + n..] == x[n..];
    }
  }

  /** Two texts with the same words and the same kind of first character keep the same
      words after one more leading non-space character. */
  lemma WordsConsCongruent(c: char, x: string, y: string)
    requires !IsSpace(c)
    requires Words(x) == Words(y)
    requires (x == []) == (y == [])
    requires x != [] ==> (IsSpace(x[0]) <==> IsSpace(y[0]))
    ensures Words([c] + x) == Words([c] + y)
  {
    WordsCons(c, x);
    WordsCons(c, y);
  }

  /** Collapsing whitespace runs keeps the words of the text unchanged. */
  lemma {:induction false} WordsOfCollapse(s: string)
    ensures Words(Collapse(s)) == Words(s)
    decreases |s|
  {
    if s == [] {
    } else if IsSpace(s[0]) {
      var t := TrimLeft(s[1..]);
      var c := Collapse(t);
      calc {
        Words(Collapse(s));
        { assert Collapse(s) == " " + c; assert (" " + c)[1..] == c; }
        Words(c);
        { WordsOfCollapse(t); }
        Words(t);
        { WordsOfTrimLeft(s[1..]); }
        Words(s[1..]);
      }
    } else {
      var x := s[1..];
      WordsOfCollapse(x);
      assert Collapse(s) == [s[0]] + Collapse(x);
      WordsConsCongruent(s[0], Collapse(x), x);
      assert s == [s[0]] + x;
    }
  }

  function LowerChar(c: char): char {
    if 'A' <= c <= 'Z' then (c as int + 32) as char else c
  }

  function UpperChar(c: char): char {
    if 'a' <= c <= 'z' then (c as int - 32) as char else c
  }

  /** `s.lower()` on ASCII letters. */
  function Lower(s: string): (r: string)
    ensures |r| == |s| && forall i :: 0 <= i < |s| ==> r[i] == LowerChar(s[i])
  {
    seq(|s|, i requires 0 <= i < |s| => LowerChar(s[i]))
  }

  /** `s.upper()` on ASCII letters. */
  function Upper(s: string): (r: string)
    ensures |r| == |s| && forall i :: 0 <= i < |s| ==> r[i] == UpperChar(s[i])
  {
    seq(|s|, i requires 0 <= i < |s| => UpperChar(s[i]))
  }

  predicate OccursAt(s: string, sub: string, i: int) {
    0 <= i && i + |sub| <= |s| && s[i..i + |sub|] == sub
  }

  /** Python's `sub in s`. */
  predicate Contains(s: string, sub: string) {
    exists i :: 0 <= i <= |s| - |sub| && OccursAt(s, sub, i)
  }

  /** Index of the first occurrence of `c`. */
  function FirstIndex(s: string, c: char): (r: Option<nat>)
    ensures r.Some? ==> r.value < |s| && s[r.value] == c && c !in s[..r.value]
    ensures r.None? ==> c !in s
  {
    if s == [] then None
    else if s[0] == c then Some(0)
    else
      match FirstIndex(s[1..], c)
      case None => None
      case Some(i) => Some(i + 1)
  }

  /** Index of the last occurrence of `c`. */
  function LastIndex(s: string, c: char): (r: Option<nat>)
    ensures r.Some? ==> r.value < |s| && s[r.value] == c && c !in s[r.value + 1..]
    ensures r.None? ==> c !in s
  {
    if s == [] then None
    else if s[|s| - 1] == c then Some(|s| - 1)
    else LastIndex(s[..|s| - 1], c)
  }

  /** `s.count(c)` for a one-character `c`. */
  function CountChar(s: string, c: char): (n: nat)
    ensures n == multiset(s)[c]
  {
    if s == [] then 0
    else
      assert s == [s[0]] + s[1..];
      (if s[0] == c then 1 else 0) + CountChar(s[1..], c)
  }

  /** `sep.join(parts)` for a one-character separator. */
  function JoinOn(parts: seq<string>, sep: char): string {
    if parts == [] then []
    else if |parts| == 1 then parts[0]
    else parts[0] + [sep] + JoinOn(parts[1..], sep)
  }

  /** `sep.join(parts)` for any separator. */
  function JoinWith(sep: string, parts: seq<string>): (r: string)
    ensures parts == [] ==> r == []
    ensures |parts| == 1 ==> r == parts[0]
  {
    if parts == [] then []
    else if |parts| == 1 then parts[0]
    else parts[0] + sep + JoinWith(sep, parts[1..])
  }

  /** `s.split(sep)` for a one-character separator: the pieces between separators;
      joining them back with the separator gives `s`. */
  function SplitOn(s: string, sep: char): (parts: seq<string>)
    ensures |parts| >= 1
    ensures forall i :: 0 <= i < |parts| ==> sep !in parts[i]
    ensures JoinOn(parts, sep) == s
  {
    match FirstIndex(s, sep)
    case None => [s]
    case Some(i) =>
      var rest := SplitOn(s[i + 1..], sep);
      assert s == s[..i] + [sep] + s[i + 1..];
      [s[..i]] + rest
  }

  lemma OccursAtTail(s: string, sep: string, i: int)
    requires s != [] && 1 <= i
    ensures OccursAt(s, sep, i) <==> OccursAt(s[1..], sep, i - 1)
  {
    if i + |sep| <= |s| {
      var a, b := s[i..i + |sep|], s[1..][i - 1..i - 1 + |sep|];
      assert |a| == |b|;
      forall k | 0 <= k < |a| ensures a[k] == b[k] {
        assert a[k] == s[i + k];
        assert b[k] == s[1..][i - 1 + k];
      }
      assert a == b;
    }
  }

  /** `s.split(sep)[0]`: the text before the first occurrence of `sep`. */
  function TextBefore(s: string, sep: string): (r: string)
    requires sep != []
    ensures |r| <= |s| && r == s[..|r|]
    ensures |r| < |s| ==> OccursAt(s, sep, |r|)
    ensures forall i :: 0 <= i < |r| ==> !OccursAt(s, sep, i)
  {
    if |s| < |sep| then s
    else if s[..|sep|] == sep then []
    else
      var r := TextBefore(s[1..], sep);
      assert forall i :: 1 <= i <= |r| ==> (OccursAt(s, sep, i) <==> OccursAt(s[1..], sep, i - 1)) by {
        forall i | 1 <= i <= |r| {
          OccursAtTail(s, sep, i);
        }
      }
      [s[0]] + r
  }

  function DigitChar(d: nat): char
    requires d < 10
  {
    "0123456789"[d]
  }

  /** `str(n)` for a natural number: its decimal digits, no leading zeros. */
  function NatToString(n: nat): (r: string)
    ensures r != []
    ensures forall i :: 0 <= i < |r| ==> '0' <= r[i] <= '9'
  {
    if n < 10 then [DigitChar(n)] else NatToString(n / 10) + [DigitChar(n % 10)]
  }

  /** `str(i)` for an integer. */
  function IntToString(i: int): string {
    if i < 0 then "-" + NatToString(-i) else NatToString(i)
  }

  /** `s[:n]`: the first `n` characters, or all of `s` when it is shorter. */
  function Take(s: string, n: nat): (r: string)
    ensures |r| == if |s| < n then |s| else n
    ensures r == s[..|r|]
  {
    if |s| <= n then s else s[..n]
  }
}
