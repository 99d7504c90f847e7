/** The JavaScript string operations the modelled code relies on:
    `trim`, `includes`, `startsWith`, `split` on one character, `join`
    with one character, and `toLowerCase`. */
module Strings {

  /** The characters `String.prototype.trim` removes: ASCII white space,
      the line terminators, the byte order mark and the Unicode space
      separators. */
  predicate IsWhitespace(c: char) {
    || c == ' ' || c == '\t' || c == '\n' || c == '\r'
    || c == '\U{B}' || c == '\U{C}' || c == '\U{A0}' || c == '\U{FEFF}'
    || c == '\U{1680}' || ('\U{2000}' <= c <= '\U{200A}')
    || c == '\U{2028}' || c == '\U{2029}' || c == '\U{202F}' || c == '\U{205F}' || c == '\U{3000}'
  }

  predicate AllWhitespace(s: string) {
    forall i | 0 <= i < |s| :: IsWhitespace(s[i])
  }

  /** `s` with its leading white space removed. */
  function TrimStart(s: string): (r: string)
    ensures |r| <= |s| && r == s[|s| - |r|..]
    ensures r == [] || !IsWhitespace(r[0])
    ensures AllWhitespace(s[..|s| - |r|])
  {
    if s != [] && IsWhitespace(s[0]) then TrimStart(s[1..]) else s
  }

  /** `s` with its trailing white space removed. */
  function TrimEnd(s: string): (r: string)
    ensures |r| <= |s| && r == s[..|r|]
    ensures r == [] || !IsWhitespace(r[|r| - 1])
    ensures AllWhitespace(s[|r|..])
  {
    if s != [] && IsWhitespace(s[|s| - 1]) then TrimEnd(s[..|s| - 1]) else s
  }

  /** `s.trim()`. */
  function Trim(s: string): string {
    TrimEnd(TrimStart(s))
  }

  /** `s.trim().length === 0` holds exactly for the strings made only of
      white space. */
  lemma TrimEmptyIffBlank(s: string)
    ensures Trim(s) == [] <==> AllWhitespace(s)
  {
    var t := TrimStart(s);
    if Trim(s) == [] {
      assert AllWhitespace(t[0..]);
      assert s == s[..|s| - |t|] + t;
    } else {
      var i := |s| - |t|;
      assert t != [] && !IsWhitespace(t[0]);
      assert s[i] == t[0];
    }
  }

  /** `s.trim() !== s` holds exactly when `s` starts or ends with white space. */
  lemma TrimUnchangedIff(s: string)
    ensures Trim(s) == s <==> (s == [] || (!IsWhitespace(s[0]) && !IsWhitespace(s[|s| - 1])))
  {
    if s != [] && !IsWhitespace(s[0]) && !IsWhitespace(s[|s| - 1]) {
      assert TrimStart(s) == s;
      assert TrimEnd(s) == s;
    }
    if Trim(s) == s && s != [] {
      var t := TrimStart(s);
      assert |t| == |s| by {
        assert |Trim(s)| <= |t| <= |s|;
      }
    }
  }

  /** `s.includes(sub)`. */
  predicate Contains(s: string, sub: string) {
    exists i | 0 <= i <= |s| - |sub| :: OccursAt(s, sub, i)
  }

  /** `sub` occurs in `s` starting at index `i`. */
  predicate OccursAt(s: string, sub: string, i: int) {
    0 <= i <= |s| - |sub| && s[i..i + |sub|] == sub
  }

  /** `s.startsWith(p)`. */
  predicate StartsWith(s: string, p: string) {
    |p| <= |s| && s[..|p|] == p
  }

  /** `s.split(sep)` for a one-character separator: the pieces between
      the separators, always at least one (`"".split("_")` is `[""]`). */
  function Split(s: string, sep: char): (parts: seq<string>)
    ensures |parts| >= 1
    ensures forall p | p in parts :: sep !in p
  {
    if s == [] then [[]]
    else
      var rest := Split(s[1..], sep);
      if s[0] == sep then [[]] + rest
      else [[s[0]] + rest[0]] + rest[1..]
  }

  /** `parts.join(sep)` for a one-character separator. */
  function Join(parts: seq<string>, sep: char): string {
    if |parts| == 0 then []
    else if |parts| == 1 then parts[0]
    else parts[0] + [sep] + Join(parts[1..], sep)
  }

  /** Splitting and joining on the same separator gives the string back. */
  lemma {:induction false} JoinSplit(s: string, sep: char)
    ensures Join(Split(s, sep), sep) == s
  {
    if s != [] {
      var rest := Split(s[1..], sep);
      JoinSplit(s[1..], sep);
      if s[0] == sep {
        assert ([[]] + rest)[1..] == rest;
      } else if |rest| > 1 {
        assert ([[s[0]] + rest[0]] + rest[1..])[1..] == rest[1..];
      }
    }
  }

  /** Splitting a string that starts with a separator-free word `w` puts
      `w` in front of the first piece and leaves the others alone. */
  lemma {:induction false} SplitPrefix(w: string, t: string, sep: char)
    requires sep !in w
    ensures Split(w + t, sep)[0] == w + Split(t, sep)[0]
    ensures Split(w + t, sep)[1..] == Split(t, sep)[1..]
  {
    if w != [] {
      assert (w + t)[1..] == w[1..] + t;
      SplitPrefix(w[1..], t, sep);
    } else {
      assert w + t == t;
    }
  }

  /** A separator-free word followed by the separator splits off as the
      first piece. */
  lemma SplitCons(w: string, t: string, sep: char)
    requires sep !in w
    ensures Split(w + [sep] + t, sep) == [w] + Split(t, sep)
  {
    assert w + [sep] + t == w + ([sep] + t);
    SplitPrefix(w, [sep] + t, sep);
    assert ([sep] + t)[1..] == t;
    var r := Split(w + [sep] + t, sep);
    assert r[0] == w + [];
    assert w + [] == w;
    assert r == [r[0]] + r[1..];
  }

  /** A separator-free word and another character stay at the front of
      the first piece. */
  lemma FirstPieceKeepsOther(w: string, c: char, t: string, sep: char)
    requires sep !in w && c != sep
    ensures Split(w + [c] + t, sep)[0] == w + [c] + Split(t, sep)[0]
  {
    assert sep !in w + [c];
    SplitPrefix(w + [c], t, sep);
  }

  /** The first piece of a split is the longest separator-free prefix:
      it runs up to the first separator, or to the end when there is none. */
  lemma {:induction false} SplitFirstPiece(s: string, sep: char)
    ensures |Split(s, sep)[0]| <= |s|
    ensures Split(s, sep)[0] == s[..|Split(s, sep)[0]|]
    ensures |Split(s, sep)[0]| < |s| ==> s[|Split(s, sep)[0]|] == sep
  {
    if s != [] {
      SplitFirstPiece(s[1..], sep);
    }
  }

  /** A string without the separator splits into itself alone. */
  lemma SplitNoSeparator(s: string, sep: char)
    requires sep !in s
    ensures Split(s, sep) == [s]
  {
    SplitPrefix(s, [], sep);
    assert s + [] == s;
  }

  /** Joining separator-free pieces and splitting again gives the pieces back. */
  lemma {:induction false} SplitJoin(parts: seq<string>, sep: char)
    requires |parts| >= 1
    requires forall p | p in parts :: sep !in p
    ensures Split(Join(parts, sep), sep) == parts
  {
    if |parts| == 1 {
      SplitPrefix(parts[0], [], sep);
      assert parts[0] + [] == parts[0];
    } else {
      var tail := Join(parts[1..], sep);
      SplitJoin(parts[1..], sep);
      var t := [sep] + tail;
      assert Join(parts, sep) == parts[0] + t;
      assert t[1..] == tail;
      SplitPrefix(parts[0], t, sep);
      assert Split(t, sep) == [[]] + Split(tail, sep);
      var r := Split(Join(parts, sep), sep);
      assert r[0] == parts[0] + [];
      assert Split(t, sep)[1..] == Split(tail, sep);
      assert r[1..] == parts[1..];
      assert r == [r[0]] + r[1..];
      assert parts[0] + [] == parts[0];
      assert parts == [parts[0]] + parts[1..];
      assert r == parts;
    }
  }

  /** The ASCII part of `toLowerCase`. */
  function LowerChar(c: char): (r: char)
    ensures 'A' <= c <= 'Z' ==> 'a' <= r <= 'z'
    ensures !('A' <= c <= 'Z') ==> r == c
  {
    if 'A' <= c <= 'Z' then (c as int - 'A' as int + 'a' as int) as char else c
  }

  function ToLower(s: string): (r: string)
    ensures |r| == |s|
    ensures forall i | 0 <= i < |s| :: r[i] == LowerChar(s[i])
  {
    if s == [] then [] else [LowerChar(s[0])] + ToLower(s[1..])
  }

  /** The UTF-16 code units of one character: two above U+FFFF, one
      otherwise. */
  function Utf16Units(c: char): nat {
    if c as int > 0xFFFF then 2 else 1
  }

  /** The code units of the first `n` characters of `s`. */
  function Utf16Prefix(s: string, n: nat): nat
    requires n <= |s|
  {
    if n == 0 then 0 else Utf16Prefix(s, n - 1) + Utf16Units(s[n - 1])
  }

  /** JavaScript's `length`: the number of UTF-16 code units of `s`. */
  function Utf16Length(s: string): nat {
    Utf16Prefix(s, |s|)
  }

  /** Each character counts once or twice. */
  lemma {:induction false} Utf16PrefixBounds(s: string, n: nat)
    requires n <= |s|
    ensures n <= Utf16Prefix(s, n) <= 2 * n
  {
    if n > 0 {
      Utf16PrefixBounds(s, n - 1);
    }
  }

  lemma Utf16LengthBounds(s: string)
    ensures |s| <= Utf16Length(s) <= 2 * |s|
  {
    Utf16PrefixBounds(s, |s|);
  }

  /** A prefix of `a + b` that stays inside `a` counts as in `a`. */
  lemma {:induction false} Utf16PrefixLeft(a: string, b: string, n: nat)
    requires n <= |a|
    ensures Utf16Prefix(a + b, n) == Utf16Prefix(a, n)
  {
    if n > 0 {
      Utf16PrefixLeft(a, b, n - 1);
      assert (a + b)[n - 1] == a[n - 1];
    }
  }

  /** A prefix of `a + b` that reaches into `b` counts all of `a`. */
  lemma {:induction false} Utf16PrefixRight(a: string, b: string, k: nat)
    requires k <= |b|
    ensures Utf16Prefix(a + b, |a| + k) == Utf16Length(a) + Utf16Prefix(b, k)
  {
    if k == 0 {
      Utf16PrefixLeft(a, b, |a|);
    } else {
      Utf16PrefixRight(a, b, k - 1);
      assert (a + b)[|a| + k - 1] == b[k - 1];
    }
  }

  /** The UTF-16 length of a concatenation is the sum of the lengths. */
  lemma Utf16LengthAppend(a: string, b: string)
    ensures Utf16Length(a + b) == Utf16Length(a) + Utf16Length(b)
  {
    Utf16PrefixRight(a, b, |b|);
  }

  /** Within the Basic Multilingual Plane the UTF-16 length is the number
      of characters. */
  lemma {:induction false} Utf16PrefixBmp(s: string, n: nat)
    requires n <= |s|
    requires forall i | 0 <= i < |s| :: s[i] as int <= 0xFFFF
    ensures Utf16Prefix(s, n) == n
  {
    if n > 0 {
      Utf16PrefixBmp(s, n - 1);
    }
  }

  lemma Utf16LengthBmp(s: string)
    ensures (forall i | 0 <= i < |s| :: s[i] as int <= 0xFFFF) ==> Utf16Length(s) == |s|
    ensures |s| == 1 && s[0] as int > 0xFFFF ==> Utf16Length(s) == 2
  {
    if forall i | 0 <= i < |s| :: s[i] as int <= 0xFFFF {
      Utf16PrefixBmp(s, |s|);
    }
  }

  /** Above the Basic Multilingual Plane every character counts twice. */
  lemma {:induction false} Utf16PrefixAstral(s: string, n: nat)
    requires n <= |s|
    requires forall i | 0 <= i < |s| :: s[i] as int > 0xFFFF
    ensures Utf16Prefix(s, n) == 2 * n
  {
    if n > 0 {
      Utf16PrefixAstral(s, n - 1);
    }
  }
}
