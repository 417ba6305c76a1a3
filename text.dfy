/** The three Python string methods the admin panel relies on: strip(), lower() and title(). */
module Text {

  /**
   * The characters for which Python's str.isspace() holds, which strip() with no argument removes:
   * tab to carriage return, the four ASCII separators, space, and the Unicode spaces.
   */
  const Whitespace: set<char> := {
    '\U{9}', '\U{A}', '\U{B}', '\U{C}', '\U{D}', '\U{1C}', '\U{1D}', '\U{1E}',
    '\U{1F}', '\U{20}', '\U{85}', '\U{A0}', '\U{1680}', '\U{2000}', '\U{2001}', '\U{2002}',
    '\U{2003}', '\U{2004}', '\U{2005}', '\U{2006}', '\U{2007}', '\U{2008}', '\U{2009}', '\U{200A}',
    '\U{2028}', '\U{2029}', '\U{202F}', '\U{205F}', '\U{3000}'
  }

  predicate IsSpace(c: char) {
    c in Whitespace
  }

  /** Leading whitespace removed: the longest suffix of s that does not start with whitespace. */
  function TrimLeft(s: string): (r: string)
    ensures |r| <= |s| && r == s[|s| - |r|..]
    ensures r != [] ==> !IsSpace(r[0])
    ensures forall i :: 0 <= i < |s| - |r| ==> IsSpace(s[i])
  {
    if s != [] && IsSpace(s[0]) then TrimLeft(s[1..]) else s
  }

  /** Trailing whitespace removed: the longest prefix of s that does not end in whitespace. */
  function TrimRight(s: string): (r: string)
    ensures |r| <= |s| && r == s[..|r|]
    ensures r != [] ==> !IsSpace(r[|r| - 1])
    ensures forall i :: |r| <= i < |s| ==> IsSpace(s[i])
  {
    if s != [] && IsSpace(s[|s| - 1]) then TrimRight(s[..|s| - 1]) else s
  }

  /** Python's s.strip(). */
  function Strip(s: string): string {
    TrimRight(TrimLeft(s))
  }

  /** Stripping a stripped string changes nothing. */
  lemma StripIdempotent(s: string)
    ensures Strip(Strip(s)) == Strip(s)
  {
    var t := Strip(s);
    assert TrimLeft(t) == t;
    assert TrimRight(t) == t;
  }

  /** A string is blank after strip() exactly when every character of it is whitespace. */
  lemma StripEmptyIff(s: string)
    ensures Strip(s) == [] <==> forall i :: 0 <= i < |s| ==> IsSpace(s[i])
  {
    var l := TrimLeft(s);
    if Strip(s) == [] {
      assert |l| == 0;
    } else if l != [] {
      assert !IsSpace(l[0]);
      assert l[0] == s[|s| - |l|];
    }
  }

  /** The result of strip() neither starts nor ends with whitespace. */
  lemma StripEnds(s: string)
    ensures Strip(s) != [] ==> !IsSpace(Strip(s)[0]) && !IsSpace(Strip(s)[|Strip(s)| - 1])
  {
    var l := TrimLeft(s);
    var r := TrimRight(l);
    if r != [] {
      assert r[0] == l[0];
    }
  }

  /** The result of strip() is the contiguous piece of s that starts after its leading whitespace. */
  lemma StripShape(s: string)
    ensures var k := |s| - |TrimLeft(s)|; k + |Strip(s)| <= |s| && Strip(s) == s[k..k + |Strip(s)|]
  {
    PrefixOfSuffix(s, TrimLeft(s), TrimRight(TrimLeft(s)));
  }

  /** A prefix of a suffix of s is the slice of s that starts where the suffix does. */
  lemma PrefixOfSuffix(s: string, l: string, r: string)
    requires |l| <= |s| && l == s[|s| - |l|..]
    requires |r| <= |l| && r == l[..|r|]
    ensures r == s[|s| - |l|..|s| - |l| + |r|]
  {
    var k := |s| - |l|;
    assert s[k..][..|r|] == s[k..k + |r|];
  }

  predicate IsUpper(c: char) { 'A' <= c <= 'Z' }
  predicate IsLower(c: char) { 'a' <= c <= 'z' }

  /** A cased character in the sense of Python's title(); the model covers the ASCII letters. */
  predicate IsCased(c: char) { IsUpper(c) || IsLower(c) }

  function LowerChar(c: char): (r: char)
    ensures !IsUpper(r)
    ensures IsCased(c) <==> IsCased(r)
  {
    if IsUpper(c) then (c as int + 32) as char else c
  }

  function UpperChar(c: char): (r: char)
    ensures !IsLower(r)
    ensures IsCased(c) <==> IsCased(r)
  {
    if IsLower(c) then (c as int - 32) as char else c
  }

  /** Python's s.lower() on ASCII letters. */
  function Lower(s: string): (r: string)
    ensures |r| == |s|
    ensures forall i :: 0 <= i < |s| ==> r[i] == LowerChar(s[i])
  {
    if s == [] then [] else [LowerChar(s[0])] + Lower(s[1..])
  }

  /** Lower-casing twice is lower-casing once. */
  lemma LowerIdempotent(s: string)
    ensures Lower(Lower(s)) == Lower(s)
  {
    assert forall i :: 0 <= i < |s| ==> Lower(Lower(s))[i] == Lower(s)[i];
  }

  /**
   * Python's title(): a cased character is upper-cased when the character before it is not
   * cased, and lower-cased when it is; every other character is kept.
   */
  function TitleFrom(s: string, prevCased: bool): (r: string)
    ensures |r| == |s|
    ensures forall i :: 0 <= i < |s| ==>
              r[i] == TitleChar(s[i], if i == 0 then prevCased else IsCased(s[i - 1]))
  {
    if s == [] then []
    else
      var rest := TitleFrom(s[1..], IsCased(s[0]));
      var r := [TitleChar(s[0], prevCased)] + rest;
      assert forall i :: 1 <= i < |s| ==> r[i] == rest[i - 1] && s[1..][i - 1] == s[i];
      r
  }

  /** The character title() puts in place of c, given whether the character before c is cased. */
  function TitleChar(c: char, prevCased: bool): char {
    if !IsCased(c) then c else if prevCased then LowerChar(c) else UpperChar(c)
  }

  /**
   * Python's title(): a letter that starts a run of letters is upper-cased, every other letter is
   * lower-cased, and everything else is kept.
   */
  function Title(s: string): (r: string)
    ensures |r| == |s|
    ensures s != [] ==> r[0] == TitleChar(s[0], false)
    ensures forall i :: 0 < i < |s| ==> r[i] == TitleChar(s[i], IsCased(s[i - 1]))
  {
    TitleFrom(s, false)
  }

  /** Title-casing only changes the case of letters: lower-casing it gives the lower-cased input. */
  lemma {:induction false} LowerOfTitleFrom(s: string, prevCased: bool)
    ensures Lower(TitleFrom(s, prevCased)) == Lower(s)
  {
    if s != [] {
      var rest := IsCased(s[0]);
      LowerOfTitleFrom(s[1..], rest);
      var t := TitleFrom(s, prevCased);
      assert t[1..] == TitleFrom(s[1..], rest);
      assert LowerChar(t[0]) == LowerChar(s[0]);
      assert Lower(t) == [LowerChar(t[0])] + Lower(t[1..]);
    }
  }

  lemma LowerOfTitle(s: string)
    ensures Lower(Title(s)) == Lower(s)
  {
    LowerOfTitleFrom(s, false);
  }
}
