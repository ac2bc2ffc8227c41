/**
 * The parts of Go's `strings` and `unicode` packages the core relies on:
 * white space, trimming, splitting on a separator, splitting into fields,
 * substring search and ASCII lower-casing.
 */
module Text {

  /** unicode.IsSpace: the Latin-1 spaces and the other Unicode White_Space characters. */
  predicate IsSpace(c: char) {
    || c == ' ' || c == '\t' || c == '\n' || c == '\U{0B}' || c == '\U{0C}' || c == '\r'
    || c == '\U{85}' || c == '\U{A0}' || c == '\U{1680}'
    || ('\U{2000}' <= c <= '\U{200A}')
    || c == '\U{2028}' || c == '\U{2029}' || c == '\U{202F}' || c == '\U{205F}' || c == '\U{3000}'
  }

  predicate AllSpace(s: string) {
    forall i :: 0 <= i < |s| ==> IsSpace(s[i])
  }

  predicate NoSpace(s: string) {
    forall i :: 0 <= i < |s| ==> !IsSpace(s[i])
  }

  // ---------------------------------------------------------------- trimming

  /** strings.TrimLeft with unicode.IsSpace: the suffix left after the leading spaces. */
  function TrimLeft(s: string): string {
    if |s| > 0 && IsSpace(s[0]) then TrimLeft(s[1..]) else s
  }

  /** The prefix left after the trailing spaces. */
  function TrimRight(s: string): string {
    if |s| > 0 && IsSpace(s[|s| - 1]) then TrimRight(s[..|s| - 1]) else s
  }

  /** TrimLeft removes a run of white space from the front, up to a non-space character. */
  lemma {:induction false} TrimLeftSpec(s: string)
    ensures var r := TrimLeft(s);
      && |r| <= |s| && r == s[|s| - |r|..]
      && AllSpace(s[..|s| - |r|])
      && (r != [] ==> !IsSpace(r[0]))
  {
    if |s| > 0 && IsSpace(s[0]) {
      TrimLeftSpec(s[1..]);
      var r := TrimLeft(s);
      assert s[1..][..|s| - 1 - |r|] == s[1..|s| - |r|];
    }
  }

  /** TrimRight removes a run of white space from the back, down to a non-space character. */
  lemma {:induction false} TrimRightSpec(s: string)
    ensures var r := TrimRight(s);
      && |r| <= |s| && r == s[..|r|]
      && AllSpace(s[|r|..])
      && (r != [] ==> !IsSpace(r[|r| - 1]))
  {
    if |s| > 0 && IsSpace(s[|s| - 1]) {
      var init := s[..|s| - 1];
      TrimRightSpec(init);
      var r := TrimRight(s);
      assert r == TrimRight(init);
      assert init[..|r|] == s[..|r|];
      assert s[|r|..] == init[|r|..] + [s[|s| - 1]];
      AllSpaceSnoc(init[|r|..], s[|s| - 1]);
    }
  }

  lemma AllSpaceSnoc(a: string, c: char)
    requires AllSpace(a) && IsSpace(c)
    ensures AllSpace(a + [c])
  {
    assert forall i :: 0 <= i < |a| ==> (a + [c])[i] == a[i];
  }

  /** White space alone trims to nothing. */
  lemma {:induction false} TrimLeftAllSpace(s: string)
    requires AllSpace(s)
    ensures TrimLeft(s) == ""
  {
    if |s| > 0 {
      TrimLeftAllSpace(s[1..]);
    }
  }

  /** strings.TrimSpace. */
  function TrimSpace(s: string): string {
    TrimRight(TrimLeft(s))
  }

  lemma ThreeParts(k: string, i: nat, n: nat)
    requires i + n <= |k|
    ensures k == k[..i] + k[i..i + n] + k[i + n..]
  {
  }

  /** What TrimSpace removes is white space on both sides, and what it keeps starts and ends with non-space. */
  lemma TrimSpaceParts(s: string) returns (pre: string, post: string)
    ensures s == pre + TrimSpace(s) + post
    ensures AllSpace(pre) && AllSpace(post)
    ensures var t := TrimSpace(s); t != [] ==> !IsSpace(t[0]) && !IsSpace(t[|t| - 1])
  {
    var l := TrimLeft(s);
    var t := TrimRight(l);
    TrimLeftSpec(s);
    TrimRightSpec(l);
    var i := |s| - |l|;
    assert s[i..i + |t|] == l[..|t|];
    assert s[i + |t|..] == l[|t|..];
    ThreeParts(s, i, |t|);
    pre, post := s[..i], s[i + |t|..];
  }

  // --------------------------------------------------------------- splitting

  /** strings.Split(s, string(sep)): the pieces between separators, always at least one. */
  function Split(s: string, sep: char): (parts: seq<string>)
    ensures |parts| >= 1
    ensures forall k :: 0 <= k < |parts| ==> sep !in parts[k]
  {
    if |s| == 0 then [""]
    else
      var rest := Split(s[1..], sep);
      if s[0] == sep then [""] + rest
      else [[s[0]] + rest[0]] + rest[1..]
  }

  /** strings.Join(parts, string(sep)). */
  function JoinWith(parts: seq<string>, sep: char): string {
    if |parts| == 0 then ""
    else if |parts| == 1 then parts[0]
    else parts[0] + [sep] + JoinWith(parts[1..], sep)
  }

  /** Split loses nothing: joining its pieces with the separator gives back the input. */
  lemma {:induction false} SplitJoin(s: string, sep: char)
    ensures JoinWith(Split(s, sep), sep) == s
  {
    if |s| > 0 {
      var rest := Split(s[1..], sep);
      SplitJoin(s[1..], sep);
      if s[0] == sep {
        assert Split(s, sep) == [""] + rest;
        assert ([""] + rest)[1..] == rest;
        assert JoinWith(Split(s, sep), sep) == "" + [sep] + JoinWith(rest, sep);
        assert s == [s[0]] + s[1..];
      } else if |rest| == 1 {
        assert Split(s, sep) == [[s[0]] + rest[0]];
        assert s == [s[0]] + s[1..];
      } else {
        var parts := [[s[0]] + rest[0]] + rest[1..];
        assert Split(s, sep) == parts;
        assert parts[1..] == rest[1..];
        assert JoinWith(rest, sep) == rest[0] + [sep] + JoinWith(rest[1..], sep);
        assert s == [s[0]] + s[1..];
      }
    }
  }

  /** Length of the longest prefix holding no white space. */
  function WordLength(s: string): (n: nat)
    ensures n <= |s| && NoSpace(s[..n])
    ensures n < |s| ==> IsSpace(s[n])
  {
    if |s| == 0 || IsSpace(s[0]) then 0 else 1 + WordLength(s[1..])
  }

  /** strings.Fields: the maximal runs of non-space characters, in order. */
  function Fields(s: string): (fs: seq<string>)
    ensures forall k :: 0 <= k < |fs| ==> fs[k] != "" && NoSpace(fs[k])
    decreases |s|
  {
    if |s| == 0 then []
    else if IsSpace(s[0]) then Fields(s[1..])
    else
      var n := WordLength(s);
      [s[..n]] + Fields(s[n..])
  }

  /** The characters of s that are not white space, in order. */
  function NonSpace(s: string): string {
    if |s| == 0 then ""
    else if IsSpace(s[0]) then NonSpace(s[1..])
    else [s[0]] + NonSpace(s[1..])
  }

  function Concat(parts: seq<string>): string {
    if |parts| == 0 then "" else parts[0] + Concat(parts[1..])
  }

  lemma {:induction false} NonSpaceAppend(a: string, b: string)
    ensures NonSpace(a + b) == NonSpace(a) + NonSpace(b)
  {
    if |a| > 0 {
      assert (a + b)[1..] == a[1..] + b;
      NonSpaceAppend(a[1..], b);
    } else {
      assert a + b == b;
    }
  }

  lemma {:induction false} NonSpaceOfWord(w: string)
    requires NoSpace(w)
    ensures NonSpace(w) == w
  {
    if |w| > 0 {
      NonSpaceOfWord(w[1..]);
      assert w == [w[0]] + w[1..];
    }
  }

  /** Fields keeps every non-space character, in order, and nothing else. */
  lemma {:induction false} FieldsKeepNonSpace(s: string)
    ensures Concat(Fields(s)) == NonSpace(s)
    decreases |s|
  {
    if |s| > 0 {
      if IsSpace(s[0]) {
        FieldsKeepNonSpace(s[1..]);
      } else {
        var n := WordLength(s);
        FieldsKeepNonSpace(s[n..]);
        assert ([s[..n]] + Fields(s[n..]))[1..] == Fields(s[n..]);
        assert s == s[..n] + s[n..];
        NonSpaceAppend(s[..n], s[n..]);
        NonSpaceOfWord(s[..n]);
      }
    }
  }

  /** A fields list of white space alone is empty. */
  lemma {:induction false} FieldsOfSpace(s: string)
    requires AllSpace(s)
    ensures Fields(s) == []
    decreases |s|
  {
    if |s| > 0 {
      FieldsOfSpace(s[1..]);
    }
  }

  /** Fields is empty exactly when the string is white space alone. */
  lemma {:induction false} FieldsEmptyIff(s: string)
    ensures Fields(s) == [] <==> AllSpace(s)
    decreases |s|
  {
    if |s| > 0 {
      FieldsEmptyIff(s[1..]);
      if IsSpace(s[0]) {
        if AllSpace(s[1..]) {
          assert forall i :: 1 <= i < |s| ==> s[i] == s[1..][i - 1];
        }
      } else {
        assert !AllSpace(s) by { assert !IsSpace(s[0]); }
      }
    }
  }

  /** A leading white-space character never starts a field. */
  lemma FieldsSkipSpace(c: char, r: string)
    requires IsSpace(c)
    ensures Fields([c] + r) == Fields(r)
  {
    assert ([c] + r)[1..] == r;
  }

  /** A word followed by white space or the end counts as exactly one letter run. */
  lemma {:induction false} WordLengthOfWord(w: string, t: string)
    requires NoSpace(w)
    requires t == "" || IsSpace(t[0])
    ensures WordLength(w + t) == |w|
    decreases |w|
  {
    if |w| > 0 {
      assert (w + t)[1..] == w[1..] + t;
      WordLengthOfWord(w[1..], t);
    } else {
      assert w + t == t;
    }
  }

  /**
   * Fields cuts exactly where a run of non-space characters ends: a maximal
   * word at the front of the string is the first field, whole.
   */
  lemma FieldsCutAtSpace(w: string, t: string)
    requires w != "" && NoSpace(w)
    requires t == "" || IsSpace(t[0])
    ensures Fields(w + t) == [w] + Fields(t)
  {
    var s := w + t;
    WordLengthOfWord(w, t);
    assert !IsSpace(s[0]) by { assert s[0] == w[0]; }
    assert s[..|w|] == w;
    assert s[|w|..] == t;
  }

  // ------------------------------------------------------------------ search

  /** sub occurs in s at position j. */
  predicate OccursAt(s: string, sub: string, j: int) {
    0 <= j && j + |sub| <= |s| && s[j..j + |sub|] == sub
  }

  lemma OccursShift(s: string, sub: string, j: int)
    requires |s| > 0 && j >= 0
    ensures OccursAt(s, sub, j + 1) <==> OccursAt(s[1..], sub, j)
  {
    if j + 1 + |sub| <= |s| {
      var a, b := s[j + 1..j + 1 + |sub|], s[1..][j..j + |sub|];
      assert forall m :: 0 <= m < |sub| ==> a[m] == b[m];
      assert a == b;
    }
  }

  /** strings.Index: the first position of sub in s, or -1. */
  function Index(s: string, sub: string): (k: int)
    ensures k == -1 || (0 <= k && k + |sub| <= |s|)
    decreases |s|
  {
    if |s| < |sub| then -1
    else if s[..|sub|] == sub then 0
    else
      var k := Index(s[1..], sub);
      if k == -1 then -1 else k + 1
  }

  /** Index finds the first occurrence, and -1 means there is none. */
  lemma {:induction false} IndexSpec(s: string, sub: string)
    ensures Index(s, sub) == -1 || OccursAt(s, sub, Index(s, sub))
    ensures Index(s, sub) == -1 ==> forall j :: !OccursAt(s, sub, j)
    ensures forall j :: 0 <= j < Index(s, sub) ==> !OccursAt(s, sub, j)
    decreases |s|
  {
    if |s| >= |sub| && s[..|sub|] != sub {
      IndexSpec(s[1..], sub);
      forall j | j >= 1 ensures OccursAt(s, sub, j) <==> OccursAt(s[1..], sub, j - 1) {
        OccursShift(s, sub, j - 1);
      }
    }
  }

  /** Index of a one-character string: -1 iff the character is absent, else its first position. */
  lemma IndexChar(s: string, c: char)
    ensures Index(s, [c]) == -1 <==> c !in s
    ensures Index(s, [c]) >= 0 ==> Index(s, [c]) < |s| && s[Index(s, [c])] == c && c !in s[..Index(s, [c])]
  {
    IndexSpec(s, [c]);
    forall j | 0 <= j < |s| ensures OccursAt(s, [c], j) <==> s[j] == c {
      assert s[j..j + 1] == [s[j]];
    }
  }

  predicate Contains(s: string, sub: string) {
    Index(s, sub) >= 0
  }

  /** strings.HasPrefix. */
  predicate HasPrefix(s: string, prefix: string) {
    |prefix| <= |s| && s[..|prefix|] == prefix
  }

  // ------------------------------------------------------------- lower case

  /** unicode.ToLower restricted to ASCII: upper-case letters become lower case, all else is kept. */
  function LowerChar(c: char): char {
    if 'A' <= c <= 'Z' then (c as int + 32) as char else c
  }

  /** strings.ToLower, rune by rune, ASCII only. */
  function ToLower(s: string): (r: string)
    ensures |r| == |s|
  {
    seq(|s|, i requires 0 <= i < |s| => LowerChar(s[i]))
  }
}
