/** String trimming as JavaScript's `String.prototype.trim` does it. */
module Text {

  /** The characters `trim` removes: ECMAScript WhiteSpace (tab, vertical tab,
      form feed, space, no-break space, byte order mark and the Unicode
      space separators) and LineTerminator (LF, CR, U+2028, U+2029). */
  const WhiteSpace: set<char> := {
    '\U{0009}', '\U{000A}', '\U{000B}', '\U{000C}', '\U{000D}', '\U{0020}',
    '\U{00A0}', '\U{1680}', '\U{2000}', '\U{2001}', '\U{2002}', '\U{2003}',
    '\U{2004}', '\U{2005}', '\U{2006}', '\U{2007}', '\U{2008}', '\U{2009}',
    '\U{200A}', '\U{2028}', '\U{2029}', '\U{202F}', '\U{205F}', '\U{3000}',
    '\U{FEFF}'
  }

  predicate IsWhiteSpace(c: char)
  {
    c in WhiteSpace
  }

  /** Every character of s is white space (the empty string included). */
  predicate Blank(s: string)
  {
    forall i :: 0 <= i < |s| ==> IsWhiteSpace(s[i])
  }

  /** The length of the white-space run at the start of s. */
  function LeadingWhiteSpace(s: string): (n: nat)
    ensures n <= |s|
    ensures Blank(s[..n])
    ensures n < |s| ==> !IsWhiteSpace(s[n])
  {
    if s == [] || !IsWhiteSpace(s[0]) then 0
    else
      var n := 1 + LeadingWhiteSpace(s[1..]);
      assert s[..n] == [s[0]] + s[1..][..n - 1];
      n
  }

  /** The length of s once its trailing white-space run is dropped. */
  function ContentEnd(s: string): (m: nat)
    ensures m <= |s|
    ensures Blank(s[m..])
    ensures m > 0 ==> !IsWhiteSpace(s[m - 1])
  {
    if s == [] || !IsWhiteSpace(s[|s| - 1]) then |s|
    else
      var m := ContentEnd(s[..|s| - 1]);
      assert s[m..] == s[..|s| - 1][m..] + [s[|s| - 1]];
      m
  }

  /** `s.trim()`: s splits into a blank prefix, the result and a blank
      suffix, and the result neither starts nor ends with white space, so
      it is empty exactly when s is blank. */
  function Trim(s: string): (r: string)
    ensures |r| <= |s|
    ensures var i := LeadingWhiteSpace(s);
      i + |r| <= |s| && s == s[..i] + r + s[i + |r|..] &&
      Blank(s[..i]) && Blank(s[i + |r|..])
    ensures r != [] ==> !IsWhiteSpace(r[0]) && !IsWhiteSpace(r[|r| - 1])
    ensures r == [] <==> Blank(s)
  {
    var i := LeadingWhiteSpace(s);
    var rest := s[i..];
    var r := rest[..ContentEnd(rest)];
    assert s == s[..i] + r + s[i + |r|..] by {
      assert rest == r + rest[|r|..];
      assert s[i + |r|..] == rest[|r|..];
    }
    r
  }

  /** Trimming twice is trimming once. */
  lemma TrimIdempotent(s: string)
    ensures Trim(Trim(s)) == Trim(s)
  {
  }
}
