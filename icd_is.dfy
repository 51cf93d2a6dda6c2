/** The ICD-9 code kind checks of src/is.cpp: the pointer loops over C
    strings become index loops, and reading `*s` at the end of the string
    reads the terminating NUL. */
module IcdIs {
  import opened IcdIsSpec

  /** The character a C pointer `s + i` points at: the terminator at the end. */
  function CharAt(s: CString, i: nat): char
    requires i <= |s|
  {
    if i < |s| then s[i] else '\0'
  }

  /** The loop `while (*s == ' ') ++s;` that opens every check: the index of
      the first character that is not a blank, or the end of the string. */
  method SkipSpaces(s: CString) returns (i: nat)
    ensures i <= |s|
    ensures forall k :: 0 <= k < i ==> s[k] == ' '
    ensures i < |s| ==> s[i] != ' '
    ensures i == LeadingSpaces(s)
    ensures i < |s| <==> FirstNonSpace(s).Some?
  {
    i := 0;
    while CharAt(s, i) == ' '
      invariant i <= |s|
      invariant forall k :: 0 <= k < i ==> s[k] == ' '
      decreases |s| - i
    {
      i := i + 1;
    }
    if i < |s| {
      FirstNonSpaceAt(s, i);
    }
  }

  /** icd9IsASingle: true exactly when the first non-blank character of `s`
      is one of the characters of `x`. */
  method IsASingle(s: CString, x: CString) returns (b: bool)
    ensures b == StartsWithAny(s, x)
    ensures b <==> exists k :: 0 <= k < |s| && s[k] != ' ' && s[k] in x && forall i :: 0 <= i < k ==> s[i] == ' '
  {
    StartsWithAnyIff(s, x);
    var i := SkipSpaces(s);
    var c := CharAt(s, i);
    var j := 0;
    while j < |x|
      invariant j <= |x|
      invariant forall k :: 0 <= k < j ==> x[k] != c
    {
      if c == x[j] {
        return true;
      }
      j := j + 1;
    }
    return false;
  }

  /** icd9IsASingleV: the first non-blank character is 'V' or 'v'. */
  method IsASingleV(s: CString) returns (b: bool)
    ensures b <==> FirstNonSpace(s) == Some('V') || FirstNonSpace(s) == Some('v')
    ensures b == StartsWithAny(s, VChars)
  {
    var i := SkipSpaces(s);
    var c := CharAt(s, i);
    b := c == 'V' || c == 'v';
  }

  /** icd9IsASingleE: the first non-blank character is 'E' or 'e'. */
  method IsASingleE(s: CString) returns (b: bool)
    ensures b <==> FirstNonSpace(s) == Some('E') || FirstNonSpace(s) == Some('e')
    ensures b == StartsWithAny(s, EChars)
  {
    var i := SkipSpaces(s);
    var c := CharAt(s, i);
    b := c == 'E' || c == 'e';
  }

  /** icd9IsASingleVE: the first non-blank character is one of 'V', 'E',
      'v', 'e'; the same answer as the V check or the E check, and as the
      general check with the characters "VvEe". */
  method IsASingleVE(s: CString) returns (b: bool)
    ensures b <==> FirstNonSpace(s) in {Some('V'), Some('E'), Some('v'), Some('e')}
    ensures b == StartsWithAny(s, VEChars)
    ensures b == (StartsWithAny(s, VChars) || StartsWithAny(s, EChars))
  {
    var i := SkipSpaces(s);
    var c := CharAt(s, i);
    b := c == 'V' || c == 'E' || c == 'v' || c == 'e';
    VEIsVOrE(s);
  }

  /** icd9IsA: a fresh vector with one answer per string of `sv`, each the
      prefix check against `x`, flipped when `invert` holds (by default it
      does not). */
  method IsA(sv: seq<CString>, x: CString, invert: bool := false) returns (out: array<bool>)
    ensures fresh(out)
    ensures out.Length == |sv|
    ensures forall i :: 0 <= i < |sv| ==> out[i] == (invert != StartsWithAny(sv[i], x))
    ensures out[..] == IsAResults(sv, x, invert)
  {
    var len := |sv|;
    out := new bool[len];
    for i := 0 to len
      invariant forall k :: 0 <= k < i ==> out[k] == (invert != StartsWithAny(sv[k], x))
    {
      var m := IsASingle(sv[i], x);
      out[i] := invert != m;
    }
    IsAResultsAt(sv, x, invert);
  }
}
