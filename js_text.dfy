/** The two JavaScript string built-ins the chat component relies on:
    `String.prototype.trim` (the blank-input guard of the send handler) and
    `String.prototype.slice` (the wallet-address abbreviation in the header).
    Strings are sequences of UTF-16 code units in JavaScript; here they are
    `seq<char>`, and only the characters that `trim` treats as white space
    are singled out. */
module JsText {

  /** The characters `trim` strips: the ECMAScript WhiteSpace production
      (tab, vertical tab, form feed, space, no-break space, byte-order mark
      and the Unicode space separators) and the LineTerminator production. */
  predicate IsJsSpace(c: char) {
    c == '\t' || c == '\U{000B}' || c == '\U{000C}' || c == ' '
    || c == '\U{00A0}' || c == '\U{FEFF}'
    || c == '\U{1680}' || ('\U{2000}' <= c <= '\U{200A}')
    || c == '\U{202F}' || c == '\U{205F}' || c == '\U{3000}'
    || c == '\n' || c == '\r' || c == '\U{2028}' || c == '\U{2029}'
  }

  /** Every character of `t` is one that `trim` strips. */
  predicate IsBlank(t: string) {
    forall i | 0 <= i < |t| :: IsJsSpace(t[i])
  }

  /** `t` without its leading white space. */
  function TrimStart(t: string): (r: string)
    ensures |r| <= |t| && r == t[|t| - |r|..]
    ensures r == [] <==> IsBlank(t)
    ensures r != [] ==> !IsJsSpace(r[0])
    ensures IsBlank(t[..|t| - |r|])
  {
    if |t| > 0 && IsJsSpace(t[0]) then
      var r := TrimStart(t[1..]);
      assert t[..|t| - |r|] == [t[0]] + t[1..][..|t[1..]| - |r|];
      assert IsBlank(t[..|t| - |r|]) by {
        BlankCons(t[0], t[1..][..|t[1..]| - |r|]);
      }
      r
    else t
  }

  /** Putting white space in front of blank text leaves it blank. */
  lemma BlankCons(c: char, t: string)
    requires IsJsSpace(c) && IsBlank(t)
    ensures IsBlank([c] + t)
  {
    forall i | 0 <= i < |[c] + t|
      ensures IsJsSpace(([c] + t)[i])
    {
      if i > 0 {
        assert ([c] + t)[i] == t[i - 1];
      }
    }
  }

  /** `t` without its trailing white space. */
  function TrimEnd(t: string): (r: string)
    ensures |r| <= |t| && r == t[..|r|]
    ensures r == [] <==> IsBlank(t)
    ensures r != [] ==> !IsJsSpace(r[|r| - 1])
    ensures IsBlank(t[|r|..])
  {
    if |t| > 0 && IsJsSpace(t[|t| - 1]) then
      var r := TrimEnd(t[..|t| - 1]);
      assert t[|r|..] == t[..|t| - 1][|r|..] + [t[|t| - 1]];
      r
    else t
  }

  /** `r` is `t` with only white space taken off its front and its back. */
  predicate StripsBlankEnds(t: string, r: string) {
    exists i | 0 <= i <= |t| - |r| ::
      r == t[i..i + |r|] && IsBlank(t[..i]) && IsBlank(t[i + |r|..])
  }

  /** `t.trim()`: the piece of `t` left once the white space at both ends
      is removed; only white space is removed, and the piece neither starts
      nor ends with white space. */
  function Trim(t: string): (r: string)
    ensures |r| <= |t|
    ensures r != [] ==> !IsJsSpace(r[0]) && !IsJsSpace(r[|r| - 1])
    ensures StripsBlankEnds(t, r)
  {
    var u := TrimStart(t);
    var r := TrimEnd(u);
    TrimmedPiece(t, u, r);
    r
  }

  /** A suffix `u` of `t` and a prefix `r` of `u`, each cut off from blank
      text, make `r` a piece of `t` between blank text; when `u` starts and
      `r` ends with a character that is not white space, so do both ends of
      `r`. */
  lemma TrimmedPiece(t: string, u: string, r: string)
    requires |u| <= |t| && u == t[|t| - |u|..] && IsBlank(t[..|t| - |u|])
    requires |r| <= |u| && r == u[..|r|] && IsBlank(u[|r|..])
    requires u != [] ==> !IsJsSpace(u[0])
    requires r != [] ==> !IsJsSpace(r[|r| - 1]) && u != []
    ensures r != [] ==> !IsJsSpace(r[0]) && !IsJsSpace(r[|r| - 1])
    ensures StripsBlankEnds(t, r)
  {
    var i := |t| - |u|;
    assert r == t[i..i + |r|];
    assert t[i + |r|..] == u[|r|..];
  }

  /** `!t.trim()` holds exactly for the strings made only of white space
      (the empty string included). */
  lemma TrimEmptyIffBlank(t: string)
    ensures Trim(t) == [] <==> IsBlank(t)
  {
    var u := TrimStart(t);
    if u != [] {
      assert !IsJsSpace(u[0]);
      assert !IsBlank(u);
    }
  }

  /** How `slice` resolves one of its index arguments against a string of
      length `len`: a negative index counts back from the end, and the
      result is clamped to `0..len`. */
  function ResolveIndex(len: nat, rel: int): (k: nat)
    ensures k <= len
  {
    if rel < 0 then (if len + rel > 0 then len + rel else 0)
    else if rel < len then rel else len
  }

  /** `s.slice(start, end)`: the characters between the two resolved
      indices, or the empty string when they are out of order. */
  function Slice(s: string, start: int, end: int): (r: string)
    ensures |r| <= |s|
    ensures 0 <= start <= end <= |s| ==> r == s[start..end]
    ensures -|s| <= start < 0 && end == |s| ==> r == s[|s| + start..]
  {
    var from, to := ResolveIndex(|s|, start), ResolveIndex(|s|, end);
    if from < to then s[from..to] else ""
  }
}
