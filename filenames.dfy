/**
 * cleanFileName, written twice in the source with the same body (once in the
 * mixer, once in the recorder): the song name becomes the base name of the
 * `.mkv` file that recording writes and mixing reads.
 */
module FileNames {
  import opened Text

  predicate IsAsciiAlnum(c: char) {
    ('a' <= c <= 'z') || ('A' <= c <= 'Z') || ('0' <= c <= '9')
  }

  /** The characters the pattern `[^a-zA-Z0-9 ]` does not match. */
  predicate Allowed(c: char) {
    IsAsciiAlnum(c) || c == ' '
  }

  /** regexp `[^a-zA-Z0-9 ]` replaced by "": every other character is dropped. */
  function StripDisallowed(s: string): string {
    if |s| == 0 then ""
    else if Allowed(s[0]) then [s[0]] + StripDisallowed(s[1..])
    else StripDisallowed(s[1..])
  }

  /** strings.ReplaceAll(s, " ", "_"). */
  function SpacesToUnderscores(s: string): string {
    seq(|s|, i requires 0 <= i < |s| => if s[i] == ' ' then '_' else s[i])
  }

  /** Only allowed characters survive the filter. */
  lemma {:induction false} StripDisallowedAllowed(s: string)
    ensures forall i :: 0 <= i < |StripDisallowed(s)| ==> Allowed(StripDisallowed(s)[i])
  {
    if |s| > 0 {
      StripDisallowedAllowed(s[1..]);
      var rest := StripDisallowed(s[1..]);
      if Allowed(s[0]) {
        var r := [s[0]] + rest;
        assert StripDisallowed(s) == r;
        assert forall i :: 1 <= i < |r| ==> r[i] == rest[i - 1];
      }
    }
  }

  /** cleanFileName: filter, trim the spaces, then turn the inner spaces into underscores. */
  function CleanFileName(name: string): string {
    SpacesToUnderscores(TrimSpace(StripDisallowed(name)))
  }

  /** The ASCII letters and digits of s, in order. */
  function Alnums(s: string): string {
    if |s| == 0 then ""
    else if IsAsciiAlnum(s[0]) then [s[0]] + Alnums(s[1..])
    else Alnums(s[1..])
  }

  /** s with every occurrence of c removed. */
  function Drop(s: string, c: char): string {
    if |s| == 0 then ""
    else if s[0] == c then Drop(s[1..], c)
    else [s[0]] + Drop(s[1..], c)
  }

  lemma {:induction false} DropAppend(a: string, b: string, c: char)
    ensures Drop(a + b, c) == Drop(a, c) + Drop(b, c)
  {
    if |a| == 0 {
      assert a + b == b;
    } else {
      assert (a + b)[1..] == a[1..] + b;
      DropAppend(a[1..], b, c);
    }
  }

  lemma {:induction false} DropOnly(a: string, c: char)
    requires forall i :: 0 <= i < |a| ==> a[i] == c
    ensures Drop(a, c) == ""
  {
    if |a| > 0 {
      DropOnly(a[1..], c);
    }
  }

  lemma {:induction false} StripThenDropSpaces(s: string)
    ensures Drop(StripDisallowed(s), ' ') == Alnums(s)
  {
    if |s| > 0 {
      StripThenDropSpaces(s[1..]);
    }
  }

  lemma {:induction false} UnderscoresThenDrop(t: string)
    requires '_' !in t
    ensures Drop(SpacesToUnderscores(t), '_') == Drop(t, ' ')
  {
    if |t| > 0 {
      UnderscoresThenDrop(t[1..]);
      assert SpacesToUnderscores(t)[1..] == SpacesToUnderscores(t[1..]);
    }
  }

  predicate Blank(s: string) {
    forall j :: 0 <= j < |s| ==> s[j] == ' '
  }

  /** The only white space a filtered name can hold is the plain space. */
  lemma AllowedSpace(c: char)
    requires Allowed(c)
    ensures IsSpace(c) ==> c == ' '
    ensures !IsSpace(c) ==> IsAsciiAlnum(c)
  {
  }

  lemma BlankWhenSpace(x: string)
    requires forall j :: 0 <= j < |x| ==> Allowed(x[j])
    requires AllSpace(x)
    ensures Blank(x)
  {
    forall j | 0 <= j < |x| ensures x[j] == ' ' {
      AllowedSpace(x[j]);
    }
  }

  /** Trimming a filtered name: what is cut off on either side is plain spaces. */
  lemma TrimAllowedSides(k: string) returns (pre: string, post: string)
    requires forall j :: 0 <= j < |k| ==> Allowed(k[j])
    ensures k == pre + TrimSpace(k) + post
    ensures Blank(pre) && Blank(post)
  {
    pre, post := TrimSpaceParts(k);
    assert forall j :: 0 <= j < |pre| ==> pre[j] == k[j];
    BlankWhenSpace(pre);
    assert forall j :: 0 <= j < |post| ==> post[j] == k[|k| - |post| + j];
    BlankWhenSpace(post);
  }

  /** Trimming a filtered name: what is kept is filtered too, and starts and ends with a letter or digit. */
  lemma TrimAllowedKept(k: string)
    requires forall j :: 0 <= j < |k| ==> Allowed(k[j])
    ensures var t := TrimSpace(k);
      && (forall j :: 0 <= j < |t| ==> Allowed(t[j]))
      && (t != [] ==> IsAsciiAlnum(t[0]) && IsAsciiAlnum(t[|t| - 1]))
  {
    var pre, post := TrimSpaceParts(k);
    var t := TrimSpace(k);
    forall j | 0 <= j < |t| ensures Allowed(t[j]) {
      assert t[j] == k[|pre| + j];
    }
    if t != [] {
      AllowedSpace(t[0]);
      AllowedSpace(t[|t| - 1]);
    }
  }

  /** The result is built from ASCII letters, digits and '_' only. */
  lemma CleanFileNameAlphabet(name: string)
    ensures var r := CleanFileName(name);
      forall j :: 0 <= j < |r| ==> IsAsciiAlnum(r[j]) || r[j] == '_'
  {
    StripDisallowedAllowed(name);
    TrimAllowedKept(StripDisallowed(name));
  }

  /** The result never starts or ends with '_': the spaces at either end were trimmed first. */
  lemma CleanFileNameEdges(name: string)
    ensures var r := CleanFileName(name);
      r != [] ==> r[0] != '_' && r[|r| - 1] != '_'
  {
    var k := StripDisallowed(name);
    StripDisallowedAllowed(name);
    TrimAllowedKept(k);
    var t := TrimSpace(k);
    if t != [] {
      assert IsAsciiAlnum(t[0]) && IsAsciiAlnum(t[|t| - 1]);
    }
  }

  /** Deleting the underscores gives back exactly the ASCII letters and digits of the name, in order. */
  lemma CleanFileNameKeepsAlnums(name: string)
    ensures Drop(CleanFileName(name), '_') == Alnums(name)
  {
    var k := StripDisallowed(name);
    StripDisallowedAllowed(name);
    var pre, post := TrimAllowedSides(k);
    TrimAllowedKept(k);
    var t := TrimSpace(k);
    DropAppend(pre + t, post, ' ');
    DropAppend(pre, t, ' ');
    DropOnly(pre, ' ');
    DropOnly(post, ' ');
    StripThenDropSpaces(name);
    assert '_' !in t by {
      forall j | 0 <= j < |t| ensures t[j] != '_' {
        assert Allowed(t[j]);
      }
    }
    UnderscoresThenDrop(t);
  }
}
