/**
 * String operations the dashboard relies on, with the semantics of the runtime that performs them:
 * Python's str.lower/strip/split/startswith/`in`, and JavaScript's toLowerCase/trim/split/indexOf/
 * includes and the `<` comparison on strings.
 */
module Text {
  import opened Common

  /** Whose whitespace definition is meant: Python's str.isspace or JavaScript's trim. */
  datatype Runtime = Python | JavaScript

  predicate IsSpace(c: char, rt: Runtime) {
    match rt
    // str.isspace: the characters of bidirectional class WS, B or S, or of category Zs
    case Python =>
      c in "\t\n\U{000B}\U{000C}\r\U{001C}\U{001D}\U{001E}\U{001F} \U{0085}\U{00A0}\U{1680}\U{2028}\U{2029}\U{202F}\U{205F}\U{3000}"
      || '\U{2000}' <= c <= '\U{200A}'
    // WhiteSpace and LineTerminator of the ECMAScript grammar
    case JavaScript =>
      c in "\t\U{000B}\U{000C} \U{00A0}\U{FEFF}\n\r\U{2028}\U{2029}\U{1680}\U{202F}\U{205F}\U{3000}"
      || '\U{2000}' <= c <= '\U{200A}'
  }

  function LowerChar(c: char): char {
    if 'A' <= c <= 'Z' then (c as int + 32) as char else c
  }

  function UpperChar(c: char): char {
    if 'a' <= c <= 'z' then (c as int - 32) as char else c
  }

  /** str.lower() / String.prototype.toLowerCase() on the ASCII letters. */
  function Lower(s: string): string {
    seq(|s|, i requires 0 <= i < |s| => LowerChar(s[i]))
  }

  /** Removes leading whitespace. */
  function TrimStart(s: string, rt: Runtime): (r: string)
    ensures |r| <= |s| && r == s[|s| - |r|..]
    ensures r == [] || !IsSpace(r[0], rt)
    ensures forall i :: 0 <= i < |s| - |r| ==> IsSpace(s[i], rt)
  {
    if s != [] && IsSpace(s[0], rt) then TrimStart(s[1..], rt) else s
  }

  /** Removes trailing whitespace. */
  function TrimEnd(s: string, rt: Runtime): (r: string)
    ensures |r| <= |s| && r == s[..|r|]
    ensures r == [] || !IsSpace(r[|r| - 1], rt)
    ensures forall i :: |r| <= i < |s| ==> IsSpace(s[i], rt)
  {
    if s != [] && IsSpace(s[|s| - 1], rt) then
      var r := TrimEnd(s[..|s| - 1], rt);
      PrefixOfInit(s, r);
      r
    else s
  }

  lemma PrefixOfInit(s: string, r: string)
    requires s != [] && |r| <= |s| - 1 && r == s[..|s| - 1][..|r|]
    ensures r == s[..|r|]
    ensures forall i :: |r| <= i < |s| - 1 ==> s[..|s| - 1][i] == s[i]
  {
  }

  /** str.strip() for Python, String.prototype.trim() for JavaScript. */
  function Trim(s: string, rt: Runtime): string {
    TrimEnd(TrimStart(s, rt), rt)
  }

  /** `sub` occurs in `s` starting at index k. */
  predicate OccursAt(s: string, sub: string, k: int) {
    0 <= k && k + |sub| <= |s| && s[k..k + |sub|] == sub
  }

  /** Python `sub in s`, JavaScript `s.includes(sub)`. */
  predicate Contains(s: string, sub: string) {
    exists k :: 0 <= k <= |s| - |sub| && OccursAt(s, sub, k)
  }

  /** Python `s.startswith(p)`. */
  predicate StartsWith(s: string, p: string) {
    |p| <= |s| && s[..|p|] == p
  }

  /** JavaScript `s.indexOf(sub)`: the first index where `sub` occurs, or -1. */
  function IndexOf(s: string, sub: string): (r: int)
    ensures r == -1 <==> !Contains(s, sub)
    ensures r != -1 ==> OccursAt(s, sub, r) && forall k :: 0 <= k < r ==> !OccursAt(s, sub, k)
  {
    IndexFrom(s, sub, 0)
  }

  function IndexFrom(s: string, sub: string, from: nat): (r: int)
    requires forall k :: 0 <= k < from ==> !OccursAt(s, sub, k)
    ensures r == -1 <==> !Contains(s, sub)
    ensures r != -1 ==> OccursAt(s, sub, r) && forall k :: 0 <= k < r ==> !OccursAt(s, sub, k)
    decreases |s| - from
  {
    if from + |sub| > |s| then
      assert forall k :: OccursAt(s, sub, k) ==> k < from;
      -1
    else if s[from..from + |sub|] == sub then
      assert OccursAt(s, sub, from);
      from
    else IndexFrom(s, sub, from + 1)
  }

  /** Number of leading characters of `s` that are not whitespace. */
  function WordLength(s: string): (n: nat)
    ensures n <= |s|
    ensures forall i :: 0 <= i < n ==> !IsSpace(s[i], Python)
    ensures n == |s| || IsSpace(s[n], Python)
  {
    if s == [] || IsSpace(s[0], Python) then 0 else 1 + WordLength(s[1..])
  }

  /** No character of w is whitespace. */
  predicate NoSpace(w: string) {
    forall i :: 0 <= i < |w| ==> !IsSpace(w[i], Python)
  }

  /** Python `s.split()`: the maximal runs of non-whitespace characters, in order. */
  function Words(s: string): (ws: seq<string>)
    ensures forall w :: w in ws ==> w != [] && NoSpace(w) && Contains(s, w)
    decreases |s|
  {
    var t := TrimStart(s, Python);
    if t == [] then []
    else
      var n := WordLength(t);
      assert n > 0;
      var rest := Words(t[n..]);
      WordsStep(s, t, n, rest);
      [t[..n]] + rest
  }

  predicate NotSpace(c: char) {
    !IsSpace(c, Python)
  }

  /** The words written one after the other. */
  function Concat(ws: seq<string>): string {
    if ws == [] then [] else ws[0] + Concat(ws[1..])
  }

  /** Words unfolded once: the first word of the trimmed text, then the words of the rest. */
  lemma WordsUnfold(s: string)
    ensures var t := TrimStart(s, Python);
      t != [] ==> WordLength(t) > 0 && Words(s) == [t[..WordLength(t)]] + Words(t[WordLength(t)..])
    ensures TrimStart(s, Python) == [] ==> Words(s) == []
  {
  }

  /** Together the words are exactly the text's non-whitespace characters, in order. */
  lemma {:induction false} WordsCoverText(s: string)
    ensures Concat(Words(s)) == Filter(s, NotSpace)
    decreases |s|
  {
    var t := TrimStart(s, Python);
    FilterSkipsLeadingSpace(s);
    WordsUnfold(s);
    if t != [] {
      var n := WordLength(t);
      FilterKeepsFirstWord(t);
      WordsCoverText(t[n..]);
      ConcatCons(t[..n], Words(t[n..]));
    }
  }

  lemma FilterSkipsLeadingSpace(s: string)
    ensures Filter(s, NotSpace) == Filter(TrimStart(s, Python), NotSpace)
  {
    var t := TrimStart(s, Python);
    var k := |s| - |t|;
    assert s == s[..k] + t;
    FilterAppend(s[..k], t, NotSpace);
    assert forall x :: x in s[..k] ==> !NotSpace(x);
    FilterNonePass(s[..k], NotSpace);
  }

  lemma FilterKeepsFirstWord(t: string)
    ensures Filter(t, NotSpace) == t[..WordLength(t)] + Filter(t[WordLength(t)..], NotSpace)
  {
    var n := WordLength(t);
    assert t == t[..n] + t[n..];
    FilterAppend(t[..n], t[n..], NotSpace);
    assert forall x :: x in t[..n] ==> NotSpace(x);
    FilterAllPass(t[..n], NotSpace);
  }

  lemma ConcatCons(w: string, ws: seq<string>)
    ensures Concat([w] + ws) == w + Concat(ws)
  {
    assert ([w] + ws)[1..] == ws;
  }

  /** A run of non-whitespace is one word. */
  lemma WordsOfWord(w: string)
    requires w != [] && NoSpace(w)
    ensures Words(w) == [w]
  {
    assert !IsSpace(w[0], Python);
    assert TrimStart(w, Python) == w;
    WordLengthOfWord(w);
    WordsUnfold(w);
    assert w[..|w|] == w && w[|w|..] == [];
    WordsUnfold([]);
  }

  /** Splitting at a whitespace character: the words of the two sides, one after the other. Together
      with WordsOfWord and Words("") == [] this determines Words on every string. */
  lemma {:induction false} WordsSplitAtSpace(a: string, c: char, b: string)
    requires IsSpace(c, Python)
    ensures Words(a + [c] + b) == Words(a) + Words(b)
    decreases |a|
  {
    var ta := TrimStart(a, Python);
    if ta == [] {
      SplitAfterBlank(a, c, b);
    } else {
      WordsSplitAtSpace(ta[WordLength(ta)..], c, b);
      SplitAfterWord(a, c, b);
    }
  }

  lemma SplitAfterBlank(a: string, c: char, b: string)
    requires IsSpace(c, Python) && TrimStart(a, Python) == []
    ensures Words(a + [c] + b) == Words(a) + Words(b)
  {
    TrimAcrossSpace(a, c, b);
    WordsUnfold(a);
    WordsOfSameTrim(a + [c] + b, b);
  }

  lemma SplitAfterWord(a: string, c: char, b: string)
    requires IsSpace(c, Python) && TrimStart(a, Python) != []
    requires var ta := TrimStart(a, Python); var n := WordLength(ta);
      Words(ta[n..] + [c] + b) == Words(ta[n..]) + Words(b)
    ensures Words(a + [c] + b) == Words(a) + Words(b)
  {
    var ta := TrimStart(a, Python);
    var n := WordLength(ta);
    WordsAfterFirstWord(a, c, b, ta, n);
    WordsUnfold(a);
    AppendAssoc([ta[..n]], Words(ta[n..]), Words(b));
  }

  /** Past a whitespace character, the first word of a is unchanged. */
  lemma WordsAfterFirstWord(a: string, c: char, b: string, ta: string, n: nat)
    requires IsSpace(c, Python) && ta == TrimStart(a, Python) && ta != [] && n == WordLength(ta)
    ensures n <= |ta| && Words(a + [c] + b) == [ta[..n]] + Words(ta[n..] + [c] + b)
  {
    TrimAcrossSpace(a, c, b);
    FirstWordBeforeSpace(ta, c, b);
    WordsOfTrimmed(a + [c] + b, ta + [c] + b, n);
  }

  lemma AppendAssoc<T>(x: seq<T>, y: seq<T>, z: seq<T>)
    ensures x + (y + z) == (x + y) + z
  {
  }

  lemma TrimAcrossSpace(a: string, c: char, b: string)
    requires IsSpace(c, Python)
    ensures TrimStart(a, Python) == [] ==> TrimStart(a + [c] + b, Python) == TrimStart(b, Python)
    ensures TrimStart(a, Python) != [] ==> TrimStart(a + [c] + b, Python) == TrimStart(a, Python) + [c] + b
  {
    var u := [c] + b;
    assert a + [c] + b == a + u;
    TrimStartAppend(a, u);
    assert u[1..] == b;
  }

  /** Words, given the trimmed text and its first word length. */
  lemma WordsOfTrimmed(x: string, t: string, n: nat)
    requires TrimStart(x, Python) == t && t != [] && WordLength(t) == n && n <= |t|
    ensures Words(x) == [t[..n]] + Words(t[n..])
  {
  }

  lemma WordsOfSameTrim(x: string, y: string)
    requires TrimStart(x, Python) == TrimStart(y, Python)
    ensures Words(x) == Words(y)
  {
  }

  lemma FirstWordBeforeSpace(t: string, c: char, b: string)
    requires IsSpace(c, Python)
    ensures var x := t + [c] + b;
      WordLength(x) == WordLength(t) &&
      x[..WordLength(t)] == t[..WordLength(t)] &&
      x[WordLength(t)..] == t[WordLength(t)..] + [c] + b
  {
    var u := [c] + b;
    assert t + [c] + b == t + u;
    WordLengthAppend(t, u);
    SliceAppend(t, u, WordLength(t));
  }

  lemma SliceAppend<T>(t: seq<T>, u: seq<T>, n: nat)
    requires n <= |t|
    ensures (t + u)[..n] == t[..n] && (t + u)[n..] == t[n..] + u
  {
  }

  lemma {:induction false} TrimStartAppend(a: string, u: string)
    ensures TrimStart(a, Python) != [] ==> TrimStart(a + u, Python) == TrimStart(a, Python) + u
    ensures TrimStart(a, Python) == [] ==> TrimStart(a + u, Python) == TrimStart(u, Python)
  {
    if a != [] {
      assert (a + u)[0] == a[0] && (a + u)[1..] == a[1..] + u;
      if IsSpace(a[0], Python) {
        TrimStartAppend(a[1..], u);
      }
    } else {
      assert a + u == u;
    }
  }

  lemma {:induction false} WordLengthAppend(t: string, u: string)
    requires u != [] && IsSpace(u[0], Python)
    ensures WordLength(t + u) == WordLength(t)
  {
    if t != [] {
      assert (t + u)[0] == t[0] && (t + u)[1..] == t[1..] + u;
      if !IsSpace(t[0], Python) {
        WordLengthAppend(t[1..], u);
      }
    } else {
      assert t + u == u;
    }
  }

  lemma {:induction false} WordLengthOfWord(w: string)
    requires NoSpace(w)
    ensures WordLength(w) == |w|
  {
    if w != [] {
      assert NoSpace(w[1..]) by {
        forall i | 0 <= i < |w[1..]| ensures !IsSpace(w[1..][i], Python) {
          assert w[1..][i] == w[i + 1];
        }
      }
      WordLengthOfWord(w[1..]);
    }
  }

  lemma WordsStep(s: string, t: string, n: nat, rest: seq<string>)
    requires |t| <= |s| && t == s[|s| - |t|..] && 0 < n <= |t|
    requires forall w :: w in rest ==> w != [] && Contains(t[n..], w)
    ensures forall w :: w in [t[..n]] + rest ==> w != [] && Contains(s, w)
  {
    var from := |s| - |t|;
    assert OccursAt(s, t[..n], from) by {
      assert s[from..][..n] == s[from..from + n];
    }
    forall w | w in rest ensures Contains(s, w) {
      var k :| 0 <= k <= |t[n..]| - |w| && OccursAt(t[n..], w, k);
      assert t[n..] == s[from + n..];
      SuffixOccurrence(s, from + n, w, k);
    }
  }

  /** An occurrence inside a suffix of `s` is an occurrence in `s`. */
  lemma SuffixOccurrence(s: string, from: nat, w: string, k: int)
    requires from <= |s| && OccursAt(s[from..], w, k)
    ensures OccursAt(s, w, from + k)
  {
    assert s[from..][k..k + |w|] == s[from + k..from + k + |w|];
  }

  /** JavaScript `s.split(' ')[0]`: everything before the first space. */
  function FirstSpaceWord(s: string): (r: string)
    ensures StartsWith(s, r)
    ensures ' ' !in r
    ensures |r| < |s| ==> s[|r|] == ' '
  {
    if s == [] || s[0] == ' ' then [] else [s[0]] + FirstSpaceWord(s[1..])
  }

  /** JavaScript `a < b` on strings: lexicographic order of the characters. */
  predicate LexLess(a: string, b: string) {
    if a == [] then b != []
    else if b == [] then false
    else a[0] < b[0] || (a[0] == b[0] && LexLess(a[1..], b[1..]))
  }

  lemma {:induction false} LexLessIrreflexive(a: string)
    ensures !LexLess(a, a)
  {
    if a != [] { LexLessIrreflexive(a[1..]); }
  }

  lemma {:induction false} LexLessTransitive(a: string, b: string, c: string)
    requires LexLess(a, b) && LexLess(b, c)
    ensures LexLess(a, c)
  {
    if a != [] && b != [] && c != [] && a[0] == b[0] && b[0] == c[0] {
      LexLessTransitive(a[1..], b[1..], c[1..]);
    }
  }

  /** Any two different strings are ordered one way or the other. */
  lemma {:induction false} LexLessTotal(a: string, b: string)
    requires a != b
    ensures LexLess(a, b) || LexLess(b, a)
  {
    if a != [] && b != [] && a[0] == b[0] {
      assert a == [a[0]] + a[1..] && b == [b[0]] + b[1..];
      LexLessTotal(a[1..], b[1..]);
    }
  }

  /** Lower-casing commutes with taking a slice. */
  lemma LowerSlice(s: string, i: int, j: int)
    requires 0 <= i <= j <= |s|
    ensures Lower(s)[i..j] == Lower(s[i..j])
  {
  }

  /** An occurrence survives lower-casing both strings. */
  lemma LowerKeepsOccurrence(s: string, w: string, k: int)
    requires OccursAt(s, w, k)
    ensures OccursAt(Lower(s), Lower(w), k)
  {
    LowerSlice(s, k, k + |w|);
  }
}
