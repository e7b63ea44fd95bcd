/** The string primitives the level settings go through: `Char.IsWhiteSpace`,
    `string.Trim` and `string.ToLowerInvariant`. */
module Text {

  /** `Char.IsWhiteSpace`: the Unicode space, line and paragraph separators,
      the control characters U+0009 to U+000D, and U+0085. */
  predicate IsWhiteSpace(c: char)
  {
    || ('\t' <= c <= '\r')
    || c == ' '
    || c == '\U{85}'
    || c == '\U{A0}'
    || c == '\U{1680}'
    || ('\U{2000}' <= c <= '\U{200A}')
    || c == '\U{2028}'
    || c == '\U{2029}'
    || c == '\U{202F}'
    || c == '\U{205F}'
    || c == '\U{3000}'
  }

  /** A string made only of white space (the empty string included). */
  predicate IsBlank(s: string)
  {
    forall i :: 0 <= i < |s| ==> IsWhiteSpace(s[i])
  }

  /** Removes the leading white space: what is left is a suffix of `s` that
      is empty or starts with a significant character. */
  function TrimStart(s: string): (r: string)
    ensures |r| <= |s| && r == s[|s| - |r|..]
    ensures forall j :: 0 <= j < |s| - |r| ==> IsWhiteSpace(s[j])
    ensures |r| > 0 ==> !IsWhiteSpace(r[0])
  {
    if |s| > 0 && IsWhiteSpace(s[0]) then TrimStart(s[1..]) else s
  }

  /** Removes the trailing white space: what is left is a prefix of `s` that
      is empty or ends with a significant character. */
  function TrimEnd(s: string): (r: string)
    ensures |r| <= |s| && r == s[..|r|]
    ensures forall j :: |r| <= j < |s| ==> IsWhiteSpace(s[j])
    ensures |r| > 0 ==> !IsWhiteSpace(r[|r| - 1])
  {
    if |s| > 0 && IsWhiteSpace(s[|s| - 1]) then TrimEnd(s[..|s| - 1]) else s
  }

  /** `string.Trim()`: the significant middle of `s`, with no white space
      left at either end; it is empty only for a blank string. What is cut
      off on the left is the white space `TrimStart` removes. */
  function Trim(s: string): (r: string)
    ensures IsTrimmed(r)
    ensures |r| == 0 <==> IsBlank(s)
    ensures Cuts(s, r, |s| - |TrimStart(s)|)
  {
    TrimIsMiddle(s);
    TrimEnd(TrimStart(s))
  }

  /** `r` is `s` with the blank head `s[..a]` and a blank tail removed. */
  predicate Cuts(s: string, r: string, a: int)
  {
    0 <= a <= |s| - |r| && r == s[a..a + |r|] && IsBlank(s[..a]) && IsBlank(s[a + |r|..])
  }

  /** Trimming both ends cuts `s` into a blank head, the result and a blank tail. */
  lemma TrimIsMiddle(s: string)
    ensures Cuts(s, TrimEnd(TrimStart(s)), |s| - |TrimStart(s)|)
  {
    CutsOfTrims(s, TrimStart(s), TrimEnd(TrimStart(s)));
  }

  /** A suffix `t` of `s` after a blank head, and a prefix `r` of `t` before
      a blank tail, together cut `s` at `|s| - |t|`. */
  lemma CutsOfTrims(s: string, t: string, r: string)
    requires |t| <= |s| && t == s[|s| - |t|..]
    requires forall j :: 0 <= j < |s| - |t| ==> IsWhiteSpace(s[j])
    requires |r| <= |t| && r == t[..|r|]
    requires forall j :: |r| <= j < |t| ==> IsWhiteSpace(t[j])
    ensures Cuts(s, r, |s| - |t|)
  {
    var a := |s| - |t|;
    BlankHead(s, a);
    assert r == s[a..a + |r|];
    assert s[a + |r|..] == t[|r|..];
    BlankTail(t, |r|);
  }

  lemma BlankHead(s: string, a: nat)
    requires a <= |s|
    requires forall j :: 0 <= j < a ==> IsWhiteSpace(s[j])
    ensures IsBlank(s[..a])
  {
  }

  lemma BlankTail(t: string, b: nat)
    requires b <= |t|
    requires forall j :: b <= j < |t| ==> IsWhiteSpace(t[j])
    ensures IsBlank(t[b..])
  {
  }

  /** A string with no white space at either end. */
  predicate IsTrimmed(s: string)
  {
    |s| > 0 ==> !IsWhiteSpace(s[0]) && !IsWhiteSpace(s[|s| - 1])
  }

  /** Trim starts at the first significant character of `s`. */
  lemma TrimStartsAtFirstSignificant(s: string, i: nat)
    requires i < |s| && !IsWhiteSpace(s[i])
    requires forall j :: 0 <= j < i ==> IsWhiteSpace(s[j])
    ensures |Trim(s)| > 0 && Trim(s)[0] == s[i]
  {
  }

  /** A string that already has no white space at either end is its own trim. */
  lemma TrimOfTrimmed(s: string)
    requires IsTrimmed(s)
    ensures Trim(s) == s
  {
  }

  /** `Char.ToLowerInvariant` on the ASCII letters; every other character is
      returned unchanged. */
  function LowerChar(c: char): char
  {
    if 'A' <= c <= 'Z' then (c as int - 'A' as int + 'a' as int) as char else c
  }

  /** A string with no ASCII upper-case letter. */
  predicate IsLower(s: string)
  {
    forall i :: 0 <= i < |s| ==> !('A' <= s[i] <= 'Z')
  }

  /** Two strings that differ at most in the case of their letters. */
  predicate SameIgnoringCase(a: string, b: string)
  {
    |a| == |b| && forall i :: 0 <= i < |a| ==> LowerChar(a[i]) == LowerChar(b[i])
  }

  /** `string.ToLowerInvariant()`: the same string up to case, with every
      letter in lower case and the white space where it was. */
  function ToLowerInvariant(s: string): (r: string)
    ensures IsLower(r) && SameIgnoringCase(r, s)
    ensures forall i :: 0 <= i < |s| ==> (IsWhiteSpace(r[i]) <==> IsWhiteSpace(s[i]))
  {
    seq(|s|, i requires 0 <= i < |s| => LowerChar(s[i]))
  }

  /** Lower-casing never changes whether a character is white space, so it
      keeps a trimmed string trimmed and a non-blank string non-blank; its
      result has no upper-case letter, and lower-casing it again changes nothing. */
  lemma LowerProperties(s: string)
    ensures IsLower(ToLowerInvariant(s))
    ensures IsTrimmed(s) ==> IsTrimmed(ToLowerInvariant(s))
    ensures IsLower(s) ==> ToLowerInvariant(s) == s
  {
  }

  /** Trimming and lower-casing leave a trimmed, lower-case string as it is. */
  lemma TrimmedLowerIsFixed(s: string)
    requires IsTrimmed(s) && IsLower(s)
    ensures ToLowerInvariant(Trim(s)) == s
  {
    TrimOfTrimmed(s);
    LowerProperties(s);
  }

  /** A non-empty string with no white space at its ends is not blank. */
  lemma TrimmedIsNotBlank(s: string)
    requires |s| > 0 && IsTrimmed(s)
    ensures !IsBlank(s)
  {
  }

}
