// Free text as the portal receives it: Python's `str.strip`.

module Text {

  predicate IsSpace(c: char)
  {
    || '\t' <= c <= '\r' || '\U{1c}' <= c <= ' ' || c == '\U{85}' || c == '\U{a0}' || c == '\U{1680}'
    || '\U{2000}' <= c <= '\U{200a}' || c in {'\U{2028}', '\U{2029}', '\U{202f}', '\U{205f}', '\U{3000}'}
  }

  function StripLeft(s: string): string
  {
    if s != [] && IsSpace(s[0]) then StripLeft(s[1..]) else s
  }

  function StripRight(s: string): string
  {
    if s != [] && IsSpace(s[|s| - 1]) then StripRight(s[..|s| - 1]) else s
  }

  function Strip(s: string): string
  {
    StripRight(StripLeft(s))
  }

  predicate Blank(s: string)
  {
    Strip(s) == ""
  }

  /** Nothing to strip at either end. */
  predicate Trimmed(s: string)
  {
    s == "" || (!IsSpace(s[0]) && !IsSpace(s[|s| - 1]))
  }

  lemma {:induction false} StripLeftTrims(s: string)
    ensures var r := StripLeft(s);
            (r == "" || !IsSpace(r[0])) && |r| <= |s| && r == s[|s| - |r|..]
  {
    if s != [] && IsSpace(s[0]) {
      StripLeftTrims(s[1..]);
    }
  }

  lemma {:induction false} StripRightTrims(s: string)
    ensures var r := StripRight(s);
            (r == "" || !IsSpace(r[|r| - 1])) && r <= s
  {
    if s != [] && IsSpace(s[|s| - 1]) {
      StripRightTrims(s[..|s| - 1]);
    }
  }

  /** Stripping trims, and a second strip changes nothing: a stored message passes its own check. */
  lemma StripTrims(s: string)
    ensures Trimmed(Strip(s)) && Strip(Strip(s)) == Strip(s) && |Strip(s)| <= |s|
  {
    StripLeftTrims(s);
    StripRightTrims(StripLeft(s));
  }

  lemma TrimmedIsFixed(s: string)
    ensures Trimmed(s) <==> Strip(s) == s
  {
    StripTrims(s);
  }
}
