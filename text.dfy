/** String handling shared by the public pages and the admin editor:
    JavaScript's whitespace class, `trim()`, and `replace(/\s/g, '')`. */
module Text {
  import opened Seqs

  /** The characters JavaScript's `trim()` and the `\s` regex class treat as
      whitespace: the WhiteSpace and LineTerminator code points of
      ECMA-262 (tab, line tab, form feed, space, no-break space, byte order
      mark, the Unicode space separators, line feed, carriage return, line
      and paragraph separators). */
  predicate IsWhitespace(c: char)
  {
    || c == '\t' || c == '\U{000B}' || c == '\U{000C}' || c == ' '
    || c == '\U{00A0}' || c == '\U{FEFF}' || c == '\U{1680}'
    || ('\U{2000}' <= c <= '\U{200A}')
    || c == '\U{202F}' || c == '\U{205F}' || c == '\U{3000}'
    || c == '\n' || c == '\r' || c == '\U{2028}' || c == '\U{2029}'
  }

  predicate NotWhitespace(c: char)
  {
    !IsWhitespace(c)
  }

  /** Every character of `s` is whitespace (vacuously so for `""`). */
  predicate IsBlank(s: string)
  {
    forall i :: 0 <= i < |s| ==> IsWhitespace(s[i])
  }

  /** `s.trimStart()`: `s` without its leading whitespace. */
  function TrimStart(s: string): (r: string)
    ensures |r| <= |s| && r == s[|s| - |r|..]
    ensures IsBlank(s[..|s| - |r|])
    ensures r == [] || NotWhitespace(r[0])
    decreases |s|
  {
    if s != [] && IsWhitespace(s[0]) then
      var r := TrimStart(s[1..]);
      assert s[1..][|s| - 1 - |r|..] == s[|s| - |r|..];
      assert s[..|s| - |r|] == [s[0]] + s[1..][..|s| - 1 - |r|];
      r
    else
      s
  }

  /** `s.trimEnd()`: `s` without its trailing whitespace. */
  function TrimEnd(s: string): (r: string)
    ensures |r| <= |s| && r == s[..|r|]
    ensures IsBlank(s[|r|..])
    ensures r == [] || NotWhitespace(r[|r| - 1])
    decreases |s|
  {
    if s != [] && IsWhitespace(s[|s| - 1]) then
      var r := TrimEnd(s[..|s| - 1]);
      assert s[..|s| - 1][..|r|] == s[..|r|];
      assert s[|r|..] == s[..|s| - 1][|r|..] + [s[|s| - 1]];
      r
    else
      s
  }

  /** `s.trim()`. */
  function Trim(s: string): string
  {
    TrimEnd(TrimStart(s))
  }

  /** `s.trim()` is the empty string exactly when `s` is all whitespace; so
      the source's `line.trim()` (as a condition) and `s.trim() !== ''` both
      mean "`s` has a non-whitespace character". */
  lemma TrimEmptyIffBlank(s: string)
    ensures Trim(s) == "" <==> IsBlank(s)
  {
    var t := TrimStart(s);
    var k := |s| - |t|;
    if Trim(s) == "" {
      assert t == [];
      assert s == s[..k];
    } else {
      var c := Trim(s)[0];
      assert c == t[0] && NotWhitespace(c);
      assert s[k] == c;
    }
  }

  /** The condition of both blank-line filters: `s.trim()` is not empty. */
  predicate NonBlank(s: string)
  {
    Trim(s) != ""
  }

  /** `list.filter(s => s.trim() !== '')`: the non-blank strings, in order. */
  function KeepNonBlank(ss: seq<string>): seq<string>
  {
    Filter(NonBlank, ss)
  }

  /** The result of `KeepNonBlank` is exactly the non-blank members of the
      input: each has a non-whitespace character, they keep their order, and
      none is dropped. */
  lemma KeepNonBlankSpec(ss: seq<string>)
    ensures forall i :: 0 <= i < |KeepNonBlank(ss)| ==> !IsBlank(KeepNonBlank(ss)[i])
    ensures Subseq(KeepNonBlank(ss), ss)
    ensures forall s :: !IsBlank(s) ==> multiset(KeepNonBlank(ss))[s] == multiset(ss)[s]
  {
    forall i | 0 <= i < |KeepNonBlank(ss)| ensures !IsBlank(KeepNonBlank(ss)[i]) {
      TrimEmptyIffBlank(KeepNonBlank(ss)[i]);
    }
    FilterIsSubseq(NonBlank, ss);
    forall s | !IsBlank(s) ensures multiset(KeepNonBlank(ss))[s] == multiset(ss)[s] {
      TrimEmptyIffBlank(s);
      FilterKeepsEverySatisfier(NonBlank, ss, s);
    }
  }

  /** A list with no blank member passes the filter unchanged; a list of
      blanks only is filtered to nothing. */
  lemma KeepNonBlankExtremes(ss: seq<string>)
    ensures (forall i :: 0 <= i < |ss| ==> !IsBlank(ss[i])) ==> KeepNonBlank(ss) == ss
    ensures (forall i :: 0 <= i < |ss| ==> IsBlank(ss[i])) ==> KeepNonBlank(ss) == []
  {
    forall i | 0 <= i < |ss| ensures NonBlank(ss[i]) <==> !IsBlank(ss[i]) {
      TrimEmptyIffBlank(ss[i]);
    }
    if forall i :: 0 <= i < |ss| ==> !IsBlank(ss[i]) {
      FilterAll(NonBlank, ss);
    }
    if forall i :: 0 <= i < |ss| ==> IsBlank(ss[i]) {
      FilterNone(NonBlank, ss);
    }
  }

  /** `s.replace(/\s/g, '')`: `s` with every whitespace character removed. */
  function StripWhitespace(s: string): string
  {
    Filter(NotWhitespace, s)
  }

  /** The stripped string has no whitespace, keeps the other characters in
      their order, and loses none of them. */
  lemma StripWhitespaceSpec(s: string)
    ensures forall i :: 0 <= i < |StripWhitespace(s)| ==> !IsWhitespace(StripWhitespace(s)[i])
    ensures Subseq(StripWhitespace(s), s)
    ensures forall c :: !IsWhitespace(c) ==> multiset(StripWhitespace(s))[c] == multiset(s)[c]
  {
    FilterIsSubseq(NotWhitespace, s);
    forall c | !IsWhitespace(c) ensures multiset(StripWhitespace(s))[c] == multiset(s)[c] {
      FilterKeepsEverySatisfier(NotWhitespace, s, c);
    }
  }

  /** The `href` of a phone link, `tel:${phone.replace(/\s/g, '')}`: the
      scheme, then the number with no whitespace left in it. */
  function TelHref(phone: string): (href: string)
    ensures |href| >= 4 && href[..4] == "tel:"
    ensures forall i :: 4 <= i < |href| ==> !IsWhitespace(href[i])
    ensures href[4..] == StripWhitespace(phone)
  {
    StripWhitespaceSpec(phone);
    "tel:" + StripWhitespace(phone)
  }
}
