/** Python's `str.strip()` with no argument, as the survey uses it to decide
    whether a free-text answer was given (app.py:156, 169, 180, 187). */
module Whitespace {

  /** The characters for which Python's `str.isspace()` is true. Among the
      ASCII characters these are the space, tab to carriage return, and the
      four separators 0x1C to 0x1F. */
  predicate IsSpace(c: char)
    ensures c as int < 128 ==> (IsSpace(c) <==> c == ' ' || '\t' <= c <= '\r' || '\U{1C}' <= c <= '\U{1F}')
  {
    c in {
      '\t', '\n', '\U{B}', '\U{C}', '\r', '\U{1C}', '\U{1D}', '\U{1E}', '\U{1F}', ' ',
      '\U{85}', '\U{A0}', '\U{1680}',
      '\U{2000}', '\U{2001}', '\U{2002}', '\U{2003}', '\U{2004}', '\U{2005}',
      '\U{2006}', '\U{2007}', '\U{2008}', '\U{2009}', '\U{200A}',
      '\U{2028}', '\U{2029}', '\U{202F}', '\U{205F}', '\U{3000}'
    }
  }

  /** Drops the leading whitespace: the result is the suffix of `s` that
      starts at its first non-space character. */
  function TrimLeft(s: string): (r: string)
    ensures |r| <= |s| && r == s[|s| - |r|..]
    ensures forall i :: 0 <= i < |s| - |r| ==> IsSpace(s[i])
    ensures r == [] || !IsSpace(r[0])
  {
    if s != [] && IsSpace(s[0]) then TrimLeft(s[1..]) else s
  }

  /** Drops the trailing whitespace: the result is the prefix of `s` that
      ends at its last non-space character. */
  function TrimRight(s: string): (r: string)
    ensures |r| <= |s| && r == s[..|r|]
    ensures forall i :: |r| <= i < |s| ==> IsSpace(s[i])
    ensures r == [] || !IsSpace(r[|r| - 1])
  {
    if s != [] && IsSpace(s[|s| - 1]) then TrimRight(s[..|s| - 1]) else s
  }

  /** `s.strip()`: no longer than `s`, and starting and ending at a
      non-space character when not empty. */
  function Strip(s: string): (r: string)
    ensures |r| <= |s|
    ensures r == [] || (!IsSpace(r[0]) && !IsSpace(r[|r| - 1]))
  {
    var t := TrimLeft(s);
    // a non-empty `t` starts at a non-space character, which TrimRight keeps
    assert t != [] ==> TrimRight(t) != [] && TrimRight(t)[0] == t[0];
    TrimRight(t)
  }

  /** `s.strip()` is the middle of `s`: it is a slice of `s`, starting at
      some index `i` (so it is a prefix of `s[i..]`), with only whitespace
      before and after it. */
  lemma StripIsMiddle(s: string)
    ensures var r := Strip(s);
      exists i :: 0 <= i <= |s| - |r| && r <= s[i..] &&
        (forall k :: 0 <= k < i ==> IsSpace(s[k])) &&
        (forall k :: i + |r| <= k < |s| ==> IsSpace(s[k]))
  {
    var r := Strip(s);
    var t := TrimLeft(s);
    var i := |s| - |t|;
    assert r == t[..|r|];
    assert t == s[i..];
    assert r == s[i..i + |r|];
    forall k | i + |r| <= k < |s|
      ensures IsSpace(s[k])
    {
      assert s[k] == t[k - i];
    }
    assert 0 <= i <= |s| - |r| && r <= s[i..] &&
      (forall k :: 0 <= k < i ==> IsSpace(s[k])) &&
      (forall k :: i + |r| <= k < |s| ==> IsSpace(s[k]));
  }

  /** `not s.strip()`: the survey's test for an empty answer. The empty
      text is blank and a text that starts with a non-space character is
      not; `BlankIffAllSpace` characterises it fully. */
  predicate IsBlank(s: string)
    ensures s == [] ==> IsBlank(s)
    ensures s != [] && !IsSpace(s[0]) ==> !IsBlank(s)
  {
    Strip(s) == []
  }

  /** An answer is blank exactly when every one of its characters is
      whitespace. */
  lemma BlankIffAllSpace(s: string)
    ensures IsBlank(s) <==> forall i :: 0 <= i < |s| ==> IsSpace(s[i])
  {
    var t := TrimLeft(s);
    if t != [] {
      // t starts at a non-space character, which TrimRight keeps
      assert !IsSpace(t[0]);
      assert !IsSpace(s[|s| - |t|]);
    }
  }
}
