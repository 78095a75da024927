/**
 * The string operations of Rust's `str` that the parsers use to tokenise a value:
 * `split_whitespace`, `split(char)`, `splitn(2, char)`, `rsplitn(2, char)`,
 * `split(pattern).next()`, `starts_with` and `ends_with`. Strings are ASCII
 * `seq<char>`, so a byte index and a character index coincide.
 */
module Text {
  import opened Wrappers

  /** `char::is_whitespace` restricted to ASCII: space and U+0009 to U+000D. */
  predicate IsWhitespace(c: char) {
    c == ' ' || '\t' <= c <= '\r'
  }

  predicate HasNoWhitespace(s: string) {
    forall i :: 0 <= i < |s| ==> !IsWhitespace(s[i])
  }

  predicate StartsWith(s: string, prefix: string) {
    |prefix| <= |s| && s[..|prefix|] == prefix
  }

  predicate EndsWith(s: string, suffix: string) {
    |suffix| <= |s| && s[|s| - |suffix|..] == suffix
  }

  /** Length of the leading run of non-whitespace characters. */
  function WordLength(s: string): (n: nat)
    ensures n <= |s|
    ensures forall i :: 0 <= i < n ==> !IsWhitespace(s[i])
    ensures n < |s| ==> IsWhitespace(s[n])
  {
    if s == [] || IsWhitespace(s[0]) then 0 else 1 + WordLength(s[1..])
  }

  /** `str::split_whitespace`: the maximal runs of non-whitespace characters, in order. */
  function Words(s: string): (ws: seq<string>)
    ensures forall i :: 0 <= i < |ws| ==> ws[i] != [] && HasNoWhitespace(ws[i])
    decreases |s|
  {
    if s == [] then []
    else if IsWhitespace(s[0]) then Words(s[1..])
    else
      var n := WordLength(s);
      [s[..n]] + Words(s[n..])
  }

  /** The words joined by single spaces: a canonical text whose `Words` are `ws`. */
  function Unwords(ws: seq<string>): string {
    if ws == [] then []
    else if |ws| == 1 then ws[0]
    else ws[0] + " " + Unwords(ws[1..])
  }

  lemma {:induction false} WordLengthOfWord(w: string, t: string)
    requires w != [] && HasNoWhitespace(w)
    requires t == [] || IsWhitespace(t[0])
    ensures WordLength(w + t) == |w|
  {
    if |w| > 1 {
      assert (w + t)[1..] == w[1..] + t;
      WordLengthOfWord(w[1..], t);
    } else {
      assert (w + t)[1..] == t;
    }
  }

  lemma {:induction false} WordsAfterSpace(t: string)
    ensures Words(" " + t) == Words(t)
  {
    assert (" " + t)[1..] == t;
  }

  /** Splitting the space-joined words gives back the words. */
  lemma {:induction false} WordsOfUnwords(ws: seq<string>)
    requires forall i :: 0 <= i < |ws| ==> ws[i] != [] && HasNoWhitespace(ws[i])
    ensures Words(Unwords(ws)) == ws
  {
    if ws == [] {
    } else if |ws| == 1 {
      var w := ws[0];
      WordLengthOfWord(w, []);
      assert w + [] == w;
      assert w[..|w|] == w && w[|w|..] == [];
    } else {
      var w, rest := ws[0], Unwords(ws[1..]);
      var s := w + (" " + rest);
      assert Unwords(ws) == s;
      WordLengthOfWord(w, " " + rest);
      assert s[..|w|] == w;
      assert s[|w|..] == " " + rest;
      WordsAfterSpace(rest);
      WordsOfUnwords(ws[1..]);
    }
  }

  /** `Join(parts, sep)`: the pieces with `sep` between them. */
  function Join(parts: seq<string>, sep: char): string
    requires |parts| >= 1
  {
    if |parts| == 1 then parts[0] else parts[0] + [sep] + Join(parts[1..], sep)
  }

  /** `str::split(sep)`: never empty; no piece holds `sep`; joining the pieces gives `s` back. */
  function Split(s: string, sep: char): (parts: seq<string>)
    ensures |parts| >= 1
    ensures forall i :: 0 <= i < |parts| ==> sep !in parts[i]
    ensures Join(parts, sep) == s
    decreases |s|
  {
    if s == [] then [[]]
    else
      var rest := Split(s[1..], sep);
      if s[0] == sep then
        assert ([[]] + rest)[1..] == rest;
        [[]] + rest
      else
        var parts := [[s[0]] + rest[0]] + rest[1..];
        assert parts[1..] == rest[1..];
        assert Join(parts, sep) == [s[0]] + Join(rest, sep);
        parts
  }

  /** Splitting joined pieces that do not hold the separator gives back the pieces. */
  lemma {:induction false} SplitJoin(parts: seq<string>, sep: char)
    requires |parts| >= 1
    requires forall i :: 0 <= i < |parts| ==> sep !in parts[i]
    ensures Split(Join(parts, sep), sep) == parts
  {
    if |parts| == 1 {
      SplitPlain(parts[0], sep);
    } else {
      SplitJoin(parts[1..], sep);
      SplitPiece(parts[0], Join(parts[1..], sep), sep);
      assert [parts[0]] + parts[1..] == parts;
    }
  }

  /** A piece without `sep` splits into itself. */
  lemma {:induction false} SplitPlain(p: string, sep: char)
    requires sep !in p
    ensures Split(p, sep) == [p]
    decreases |p|
  {
    if p != [] {
      SplitPlain(p[1..], sep);
      assert [p[0]] + p[1..] == p;
    }
  }

  /** A piece without `sep`, followed by `sep` and a tail, splits into that piece and the pieces of the tail. */
  lemma {:induction false} SplitPiece(p: string, tail: string, sep: char)
    requires sep !in p
    ensures Split(p + [sep] + tail, sep) == [p] + Split(tail, sep)
    decreases |p|
  {
    var s := p + [sep] + tail;
    if p == [] {
      assert s == [sep] + tail;
      assert s[1..] == tail;
    } else {
      assert s[0] == p[0] && s[1..] == p[1..] + [sep] + tail;
      SplitPiece(p[1..], tail, sep);
      var rest := Split(s[1..], sep);
      assert rest == [p[1..]] + Split(tail, sep);
      assert rest[0] == p[1..] && rest[1..] == Split(tail, sep);
      assert [p[0]] + p[1..] == p;
    }
  }

  /** `str::splitn(2, sep)`: the text before the first `sep`, and the text after it when there is one. */
  function SplitFirst(s: string, sep: char): (r: (string, Option<string>))
    ensures sep !in r.0
    ensures r.1.None? ==> r.0 == s
    ensures r.1.Some? ==> s == r.0 + [sep] + r.1.value
  {
    if s == [] then ([], None)
    else if s[0] == sep then ([], Some(s[1..]))
    else
      var (head, rest) := SplitFirst(s[1..], sep);
      ([s[0]] + head, rest)
  }

  /** Text that has no `sep` before a `sep` splits at that one. */
  lemma {:induction false} SplitFirstAtFirst(a: string, sep: char, b: string)
    requires sep !in a
    ensures SplitFirst(a + [sep] + b, sep) == (a, Some(b))
  {
    if a == [] {
      assert a + [sep] + b == [sep] + b;
      assert ([sep] + b)[1..] == b;
    } else {
      SplitFirstAtFirst(a[1..], sep, b);
      assert (a + [sep] + b)[1..] == a[1..] + [sep] + b;
      assert [a[0]] + a[1..] == a;
    }
  }

  /** `str::rsplitn(2, sep)`: the text after the last `sep`, and the text before it when there is one. */
  function SplitLast(s: string, sep: char): (r: (string, Option<string>))
    ensures sep !in r.0
    ensures r.1.None? ==> r.0 == s
    ensures r.1.Some? ==> s == r.1.value + [sep] + r.0
  {
    if s == [] then ([], None)
    else if s[|s| - 1] == sep then ([], Some(s[..|s| - 1]))
    else
      var (tail, rest) := SplitLast(s[..|s| - 1], sep);
      (tail + [s[|s| - 1]], rest)
  }

  /** Text that has no `sep` after a `sep` splits at that one. */
  lemma {:induction false} SplitLastAtLast(a: string, sep: char, b: string)
    requires sep !in b
    ensures SplitLast(a + [sep] + b, sep) == (b, Some(a))
    decreases |b|
  {
    var s := a + [sep] + b;
    if b == [] {
      assert s[..|s| - 1] == a;
    } else {
      var b' := b[..|b| - 1];
      assert s[..|s| - 1] == a + [sep] + b';
      SplitLastAtLast(a, sep, b');
      assert b' + [b[|b| - 1]] == b;
    }
  }

  /** `s.split(pattern).next()`: the text before the first occurrence of `pattern`, or all of `s`. */
  function TextBefore(s: string, pattern: string): (r: string)
    requires pattern != []
    ensures StartsWith(s, r)
    ensures r == s || StartsWith(s[|r|..], pattern)
    ensures forall i :: 0 <= i < |r| ==> !StartsWith(s[i..], pattern)
  {
    if |s| < |pattern| then s
    else if s[..|pattern|] == pattern then []
    else
      var r := [s[0]] + TextBefore(s[1..], pattern);
      assert forall i :: 1 <= i < |r| ==> s[i..] == s[1..][i - 1..];
      r
  }

  /** The text before a pattern ends where the pattern first starts. */
  lemma TextBeforeAt(s: string, pattern: string, k: nat)
    requires pattern != [] && k <= |s| && StartsWith(s[k..], pattern)
    requires forall i :: 0 <= i < k ==> !StartsWith(s[i..], pattern)
    ensures TextBefore(s, pattern) == s[..k]
  {
  }
}
