/**
 * The Python `str` builtins that the scripts rely on, over already-decoded text:
 * `sub in s`, `s.split(sep)`, `s.split()`, `s.strip(...)`, string ordering with
 * `list.sort()`, and POSIX `os.path.join`.
 */
module PyText {
  import opened Wrappers

  /** `c.isspace()`: the characters that `str.split()` and `str.strip()` treat as whitespace. */
  predicate IsSpace(c: char) {
    || c == ' ' || ('\t' <= c <= '\r') || ('\U{1c}' <= c <= '\U{1f}')
    || c == '\U{85}' || c == '\U{a0}' || c == '\U{1680}'
    || ('\U{2000}' <= c <= '\U{200a}') || c == '\U{2028}' || c == '\U{2029}'
    || c == '\U{202f}' || c == '\U{205f}' || c == '\U{3000}'
  }

  /** The double-quote character, stripped by `strip('"')`. */
  predicate IsQuote(c: char) {
    c == '"'
  }

  // ---------------------------------------------------------------------------
  // Substring search
  // ---------------------------------------------------------------------------

  /** `sub` occurs in `s` starting at index `i`. */
  predicate OccursAt(s: string, sub: string, i: nat) {
    i + |sub| <= |s| && s[i..i + |sub|] == sub
  }

  /** `s.find(sub, from)`: the first index at or after `from` where `sub` occurs. */
  function FindFrom(s: string, sub: string, from: nat): (r: Option<nat>)
    decreases |s| - from
    ensures r.Some? ==> from <= r.value && OccursAt(s, sub, r.value)
    ensures r.Some? ==> forall j :: from <= j < r.value ==> !OccursAt(s, sub, j)
    ensures r.None? ==> forall j: nat :: from <= j ==> !OccursAt(s, sub, j)
  {
    if from + |sub| > |s| then None
    else if s[from..from + |sub|] == sub then Some(from)
    else FindFrom(s, sub, from + 1)
  }

  /** `sub in s`. */
  predicate Contains(s: string, sub: string) {
    FindFrom(s, sub, 0).Some?
  }

  /** `sub in s` holds exactly when `sub` occurs somewhere in `s`. */
  lemma ContainsIff(s: string, sub: string)
    ensures Contains(s, sub) <==> exists i: nat :: OccursAt(s, sub, i)
  {
    if Contains(s, sub) {
      assert OccursAt(s, sub, FindFrom(s, sub, 0).value);
    }
  }

  // ---------------------------------------------------------------------------
  // s.split(sep) and sep.join(parts)
  // ---------------------------------------------------------------------------

  /** `sep.join(parts)`. */
  function JoinWith(parts: seq<string>, sep: string): string
  {
    if |parts| == 0 then ""
    else if |parts| == 1 then parts[0]
    else parts[0] + sep + JoinWith(parts[1..], sep)
  }

  /**
   * `s.split(sep)` for a non-empty separator: the pieces between the
   * non-overlapping occurrences of `sep`, found left to right.
   */
  function Split(s: string, sep: string): (parts: seq<string>)
    requires sep != []
    decreases |s|
    ensures |parts| >= 1
  {
    match FindFrom(s, sep, 0)
    case None => [s]
    case Some(i) => [s[..i]] + Split(s[i + |sep|..], sep)
  }

  /** `sep.join(s.split(sep)) == s`: splitting loses nothing. */
  lemma {:induction false} SplitJoin(s: string, sep: string)
    requires sep != []
    ensures JoinWith(Split(s, sep), sep) == s
    decreases |s|
  {
    match FindFrom(s, sep, 0)
    case None =>
    case Some(i) =>
      var a, b := s[..i], s[i + |sep|..];
      var rest := Split(b, sep);
      SplitJoin(b, sep);
      assert Split(s, sep) == [a] + rest;
      assert ([a] + rest)[1..] == rest;
      assert JoinWith([a] + rest, sep) == a + sep + JoinWith(rest, sep);
      assert s[i..i + |sep|] == sep;
      assert s == a + s[i..i + |sep|] + b;
  }

  /** No occurrence of `sep` lies wholly inside the text before its first occurrence. */
  lemma PrefixBeforeFirstIsFree(s: string, sep: string, i: nat)
    requires sep != [] && OccursAt(s, sep, i)
    requires forall j :: 0 <= j < i ==> !OccursAt(s, sep, j)
    ensures !Contains(s[..i], sep)
  {
    forall j: nat ensures !OccursAt(s[..i], sep, j) {
      if j + |sep| <= i {
        assert s[..i][j..j + |sep|] == s[j..j + |sep|];
        assert !OccursAt(s, sep, j);
      }
    }
    ContainsIff(s[..i], sep);
  }

  /** No piece of `s.split(sep)` contains `sep`. */
  lemma {:induction false} SplitPiecesAreFree(s: string, sep: string)
    requires sep != []
    ensures forall i :: 0 <= i < |Split(s, sep)| ==> !Contains(Split(s, sep)[i], sep)
    decreases |s|
  {
    match FindFrom(s, sep, 0)
    case None =>
    case Some(i) =>
      PrefixBeforeFirstIsFree(s, sep, i);
      SplitPiecesAreFree(s[i + |sep|..], sep);
      var rest := Split(s[i + |sep|..], sep);
      assert forall j :: 1 <= j < |rest| + 1 ==> ([s[..i]] + rest)[j] == rest[j - 1];
  }

  /** `s.split(sep)` has a single piece exactly when `sep` does not occur in `s`; that piece is `s`. */
  lemma SplitSingle(s: string, sep: string)
    requires sep != []
    ensures |Split(s, sep)| == 1 <==> !Contains(s, sep)
    ensures !Contains(s, sep) ==> Split(s, sep) == [s]
  {
  }

  /** `parts[-1]`. */
  function Last(parts: seq<string>): string
    requires |parts| >= 1
  {
    parts[|parts| - 1]
  }

  /** `s.split(sep)[-1]`: the text after the last occurrence of `sep`, or all of `s` when there is none. */
  function AfterLast(s: string, sep: string): string
    requires sep != []
  {
    Last(Split(s, sep))
  }

  /** What follows the last separator contains no separator; without a separator it is the whole text. */
  lemma AfterLastIsFree(s: string, sep: string)
    requires sep != []
    ensures !Contains(AfterLast(s, sep), sep)
    ensures !Contains(s, sep) ==> AfterLast(s, sep) == s
  {
    SplitPiecesAreFree(s, sep);
    SplitSingle(s, sep);
  }

  // ---------------------------------------------------------------------------
  // s.split() with no separator
  // ---------------------------------------------------------------------------

  /** A token of `str.split()`: non-empty and free of whitespace. */
  predicate IsWord(t: string) {
    |t| > 0 && forall k :: 0 <= k < |t| ==> !IsSpace(t[k])
  }

  /** The end of the run of non-whitespace characters that starts at `i`. */
  function WordEnd(s: string, i: nat): (e: nat)
    requires i <= |s|
    decreases |s| - i
    ensures i <= e <= |s|
    ensures forall k :: i <= k < e ==> !IsSpace(s[k])
    ensures e == |s| || IsSpace(s[e])
  {
    if i == |s| || IsSpace(s[i]) then i else WordEnd(s, i + 1)
  }

  /** `s.split()`: the maximal runs of non-whitespace characters, in order. */
  function Tokens(s: string): (toks: seq<string>)
    decreases |s|
    ensures forall i :: 0 <= i < |toks| ==> IsWord(toks[i])
  {
    if s == [] then []
    else if IsSpace(s[0]) then Tokens(s[1..])
    else
      var e := WordEnd(s, 0);
      [s[..e]] + Tokens(s[e..])
  }

  /** A word followed by whitespace and more text splits into that word and the tokens of the rest. */
  lemma TokensOfWordThenSpace(w: string, rest: string)
    requires IsWord(w)
    ensures Tokens(w + " " + rest) == [w] + Tokens(rest)
  {
    var s := w + " " + rest;
    assert forall k :: 0 <= k < |w| ==> s[k] == w[k];
    assert s[|w|] == ' ';
    var e := WordEnd(s, 0);
    assert e == |w|;
    assert s[..e] == w;
    assert s[e..] == " " + rest;
    assert (" " + rest)[1..] == rest;
  }

  /** `" ".join(words).split() == words` for words without whitespace: `split()` undoes a single-space join. */
  lemma {:induction false} TokensOfJoin(words: seq<string>)
    requires forall i :: 0 <= i < |words| ==> IsWord(words[i])
    ensures Tokens(JoinWith(words, " ")) == words
  {
    if |words| == 1 {
      var w := words[0];
      assert WordEnd(w, 0) == |w|;
      assert w[..|w|] == w;
      assert w[|w|..] == [];
    } else if |words| > 1 {
      TokensOfJoin(words[1..]);
      TokensOfWordThenSpace(words[0], JoinWith(words[1..], " "));
      assert words == [words[0]] + words[1..];
    }
  }

  // ---------------------------------------------------------------------------
  // s.strip() and s.strip(chars)
  // ---------------------------------------------------------------------------

  /** The length of the leading run of characters satisfying `drop`: what `s.lstrip(chars)` removes. */
  function LeadingRun(s: string, drop: char -> bool): (n: nat)
    decreases |s|
    ensures n <= |s|
    ensures forall k :: 0 <= k < n ==> drop(s[k])
    ensures n < |s| ==> !drop(s[n])
  {
    if s != [] && drop(s[0]) then 1 + LeadingRun(s[1..], drop) else 0
  }

  /** Where the trailing run of characters satisfying `drop` begins, not before `lo`: what `s.rstrip(chars)` keeps. */
  function TrailingStart(s: string, drop: char -> bool, lo: nat): (m: nat)
    requires lo <= |s|
    decreases |s|
    ensures lo <= m <= |s|
    ensures forall k :: m <= k < |s| ==> drop(s[k])
    ensures lo < m ==> !drop(s[m - 1])
  {
    if lo < |s| && drop(s[|s| - 1]) then TrailingStart(s[..|s| - 1], drop, lo) else |s|
  }

  /**
   * `s.strip(chars)`: the slice of `s` left after removing the longest leading
   * and trailing runs of characters satisfying `drop`. A result that is not
   * empty neither starts nor ends with such a character.
   */
  function Strip(s: string, drop: char -> bool): (r: string)
    ensures |r| <= |s|
    ensures r != [] ==> !drop(r[0]) && !drop(r[|r| - 1])
    ensures exists lo, hi :: 0 <= lo <= hi <= |s| && r == s[lo..hi]
                             && (forall k :: 0 <= k < lo ==> drop(s[k]))
                             && (forall k :: hi <= k < |s| ==> drop(s[k]))
  {
    var lo := LeadingRun(s, drop);
    var hi := TrailingStart(s, drop, lo);
    s[lo..hi]
  }

  // ---------------------------------------------------------------------------
  // String order and list.sort()
  // ---------------------------------------------------------------------------

  /** Python's `a < b` on str: code-point lexicographic order, a proper prefix first. */
  predicate StrLess(a: string, b: string)
    decreases |a|
  {
    if a == [] then b != []
    else if b == [] then false
    else if a[0] != b[0] then a[0] < b[0]
    else StrLess(a[1..], b[1..])
  }

  /** Python's `a <= b` on str. */
  predicate StrLessEq(a: string, b: string) {
    a == b || StrLess(a, b)
  }

  lemma {:induction false} StrLessIrreflexive(a: string)
    ensures !StrLess(a, a)
  {
    if a != [] {
      StrLessIrreflexive(a[1..]);
    }
  }

  lemma {:induction false} StrLessTotal(a: string, b: string)
    ensures a == b || StrLess(a, b) || StrLess(b, a)
    decreases |a|
  {
    if a != [] && b != [] && a[0] == b[0] {
      StrLessTotal(a[1..], b[1..]);
      if a[1..] == b[1..] {
        assert a == [a[0]] + a[1..] && b == [b[0]] + b[1..];
      }
    }
  }

  lemma {:induction false} StrLessTransitive(a: string, b: string, c: string)
    requires StrLess(a, b) && StrLess(b, c)
    ensures StrLess(a, c)
    decreases |a|
  {
    if a != [] && a[0] == b[0] && b[0] == c[0] {
      StrLessTransitive(a[1..], b[1..], c[1..]);
    }
  }

  lemma StrLessEqTransitive(a: string, b: string, c: string)
    requires StrLessEq(a, b) && StrLessEq(b, c)
    ensures StrLessEq(a, c)
  {
    if a != b && b != c {
      StrLessTransitive(a, b, c);
    }
  }

  /** A shared prefix does not change how two strings compare. */
  lemma {:induction false} StrLessAfterCommonPrefix(p: string, a: string, b: string)
    requires StrLess(a, b)
    ensures StrLess(p + a, p + b)
  {
    if p != [] {
      StrLessAfterCommonPrefix(p[1..], a, b);
      assert (p + a)[1..] == p[1..] + a;
      assert (p + b)[1..] == p[1..] + b;
    } else {
      assert p + a == a && p + b == b;
    }
  }

  /** Every pair of elements is in Python string order. */
  predicate Ascending(xs: seq<string>) {
    forall i, j :: 0 <= i < j < |xs| ==> StrLessEq(xs[i], xs[j])
  }

  /** Inserting `x` in front of the first element it does not exceed. */
  function Insert(x: string, xs: seq<string>): (r: seq<string>)
    ensures multiset(r) == multiset(xs) + multiset{x}
    ensures |r| == |xs| + 1
  {
    if xs == [] then [x]
    else if StrLessEq(x, xs[0]) then [x] + xs
    else
      assert xs == [xs[0]] + xs[1..];
      [xs[0]] + Insert(x, xs[1..])
  }

  lemma {:induction false} InsertAscending(x: string, xs: seq<string>)
    requires Ascending(xs)
    ensures Ascending(Insert(x, xs))
  {
    if xs == [] {
    } else if StrLessEq(x, xs[0]) {
      forall j | 0 < j < |xs| + 1 ensures StrLessEq(x, ([x] + xs)[j]) {
        StrLessEqTransitive(x, xs[0], xs[j - 1]);
      }
    } else {
      StrLessTotal(x, xs[0]);
      var tail := Insert(x, xs[1..]);
      InsertAscending(x, xs[1..]);
      var r := [xs[0]] + tail;
      forall j | 0 < j < |r| ensures StrLessEq(xs[0], r[j]) {
        assert r[j] in multiset(tail);
        assert r[j] == x || r[j] in multiset(xs[1..]);
        if r[j] != x {
          var m :| 0 <= m < |xs[1..]| && xs[1..][m] == r[j];
          assert xs[m + 1] == r[j];
        }
      }
    }
  }

  /** `xs.sort()` on a list of str: the ascending permutation of `xs`. */
  function SortStrings(xs: seq<string>): (r: seq<string>)
    ensures multiset(r) == multiset(xs)
    ensures Ascending(r)
  {
    if xs == [] then []
    else
      var tail := SortStrings(xs[1..]);
      InsertAscending(xs[0], tail);
      assert xs == [xs[0]] + xs[1..];
      Insert(xs[0], tail)
  }

  // ---------------------------------------------------------------------------
  // os.path.join
  // ---------------------------------------------------------------------------

  /**
   * POSIX `os.path.join(a, b)`: an absolute `b` replaces `a`; otherwise `b` is
   * appended, after a `/` unless `a` is empty or already ends in one.
   */
  function PathJoin(a: string, b: string): (r: string)
    ensures |b| <= |r| && r[|r| - |b|..] == b
    ensures !(|b| > 0 && b[0] == '/') ==> |a| <= |r| && r[..|a|] == a
    ensures !(|b| > 0 && b[0] == '/') ==> (r == a + b || r == a + "/" + b)
  {
    if |b| > 0 && b[0] == '/' then b
    else if a == [] || a[|a| - 1] == '/' then a + b
    else a + "/" + b
  }
}
