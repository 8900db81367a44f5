/**
 * The two notions of "space" that java.lang.String uses and that the local
 * resolver combines: isBlank() tests every character with
 * Character.isWhitespace, while trim() strips characters at or below U+0020.
 */
module JavaStrings {

  /** Character.isWhitespace: the Unicode space, line and paragraph separators
      except the no-break spaces U+00A0, U+2007 and U+202F, plus the controls
      U+0009..U+000D and U+001C..U+001F. */
  predicate IsWhitespace(c: char) {
    || ('\U{9}' <= c <= '\U{D}')
    || ('\U{1C}' <= c <= '\U{20}')
    || c == '\U{1680}'
    || ('\U{2000}' <= c <= '\U{2006}')
    || ('\U{2008}' <= c <= '\U{200A}')
    || c == '\U{2028}' || c == '\U{2029}'
    || c == '\U{205F}' || c == '\U{3000}'
  }

  /** String.isBlank: empty, or whitespace only. */
  predicate IsBlank(s: string) {
    forall i :: 0 <= i < |s| ==> IsWhitespace(s[i])
  }

  /** What String.trim removes: any character whose code point is at most U+0020. */
  predicate IsTrimmable(c: char) {
    c <= ' '
  }

  /** String.trim's first scan: from st, skip trimmable characters; the
      result is the index of the first kept character, or |s|. */
  function FirstKept(s: string, st: nat): (r: nat)
    requires st <= |s|
    ensures st <= r <= |s|
    ensures forall k :: st <= k < r ==> IsTrimmable(s[k])
    ensures r < |s| ==> !IsTrimmable(s[r])
    decreases |s| - st
  {
    if st < |s| && IsTrimmable(s[st]) then FirstKept(s, st + 1) else st
  }

  /** String.trim's second scan: shorten len while the character before it is
      trimmable, never going below st. */
  function EndKept(s: string, st: nat, len: nat): (r: nat)
    requires st <= len <= |s|
    ensures st <= r <= len
    ensures forall k :: r <= k < len ==> IsTrimmable(s[k])
    ensures st < r ==> !IsTrimmable(s[r - 1])
  {
    if st < len && IsTrimmable(s[len - 1]) then EndKept(s, st, len - 1) else len
  }

  /** String.trim: the longest infix of s that neither starts nor ends with a
      trimmable character. */
  function Trim(s: string): (r: string)
    ensures |r| <= |s|
    ensures r != [] ==> !IsTrimmable(r[0]) && !IsTrimmable(r[|r| - 1])
    ensures (s == [] || (!IsTrimmable(s[0]) && !IsTrimmable(s[|s| - 1]))) ==> r == s
    ensures (forall k :: 0 <= k < |s| ==> IsTrimmable(s[k])) ==> r == []
  {
    var st := FirstKept(s, 0);
    var len := EndKept(s, st, |s|);
    s[st..len]
  }

  /** Trim keeps the contiguous piece s[lo..lo + |Trim(s)|] of s and cuts
      only trimmable characters on either side of it. */
  lemma TrimIsInfix(s: string) returns (lo: nat)
    ensures lo + |Trim(s)| <= |s| && Trim(s) == s[lo..lo + |Trim(s)|]
    ensures forall k :: 0 <= k < lo ==> IsTrimmable(s[k])
    ensures forall k :: lo + |Trim(s)| <= k < |s| ==> IsTrimmable(s[k])
  {
    lo := FirstKept(s, 0);
    var len := EndKept(s, lo, |s|);
    assert Trim(s) == s[lo..len];
  }

  /** Trimming twice is trimming once. */
  lemma TrimIdempotent(s: string)
    ensures Trim(Trim(s)) == Trim(s)
  {
  }

  /** A control character below U+0009 is trimmed away although it is not
      whitespace: a non-blank string can trim to the empty string. */
  lemma NonBlankCanTrimToEmpty()
    ensures !IsBlank("\U{1}") && Trim("\U{1}") == ""
  {
    assert !IsWhitespace("\U{1}"[0]);
  }

  /** A separator above U+0020 counts as blank but is not trimmed. */
  lemma BlankCanSurviveTrim()
    ensures IsBlank("\U{2000}") && Trim("\U{2000}") == "\U{2000}"
  {
    var s := "\U{2000}";
    assert |s| == 1 && s[0] == '\U{2000}';
    assert IsWhitespace(s[0]) && !IsTrimmable(s[0]);
  }

  /** A value padded with one space on each side trims to the value. */
  lemma TrimPadded(w: string)
    requires w != [] && !IsTrimmable(w[0]) && !IsTrimmable(w[|w| - 1])
    ensures Trim([' '] + w + [' ']) == w
  {
    var s := [' '] + w + [' '];
    assert s[0] == ' ' && s[1] == w[0] && s[|s| - 1] == ' ' && s[|s| - 2] == w[|w| - 1];
    assert FirstKept(s, 0) == FirstKept(s, 1) == 1;
    assert EndKept(s, 1, |s|) == EndKept(s, 1, |s| - 1) == |s| - 1;
    assert s[1..|s| - 1] == w;
  }
}
