/**
 * The few Python string methods the broadcast pipeline relies on:
 * `str.strip()`, `str.upper()` and `str.replace(a, b)` for one-character
 * arguments. Characters outside ASCII are treated as ordinary letters
 * without case and without white space.
 */
module Text {

  /**
   * `str.isspace()` for the ASCII range: the blank, tab through carriage
   * return (9 to 13) and the four separators 28 to 31.
   */
  predicate IsSpace(c: char) {
    c == ' ' || '\t' <= c <= '\r' || '\U{1C}' <= c <= '\U{1F}'
  }

  predicate AllSpace(s: string) {
    forall i :: 0 <= i < |s| ==> IsSpace(s[i])
  }

  /** The number of white-space characters `s` starts with. */
  function LeadSpaces(s: string): (k: nat)
    ensures k <= |s|
    ensures forall i :: 0 <= i < k ==> IsSpace(s[i])
    ensures k < |s| ==> !IsSpace(s[k])
  {
    if s != [] && IsSpace(s[0]) then 1 + LeadSpaces(s[1..]) else 0
  }

  /** The number of white-space characters `s` ends with. */
  function TrailSpaces(s: string): (k: nat)
    ensures k <= |s|
    ensures forall i :: |s| - k <= i < |s| ==> IsSpace(s[i])
    ensures k < |s| ==> !IsSpace(s[|s| - k - 1])
  {
    if s != [] && IsSpace(s[|s| - 1]) then 1 + TrailSpaces(s[..|s| - 1]) else 0
  }

  /** `s.lstrip()`. */
  function TrimStart(s: string): string {
    s[LeadSpaces(s)..]
  }

  /** `s.rstrip()`. */
  function TrimEnd(s: string): string {
    s[..|s| - TrailSpaces(s)]
  }

  /** `s.strip()`: the white space at both ends cut off. */
  function Strip(s: string): string {
    TrimEnd(TrimStart(s))
  }

  /** What `Strip` leaves neither starts nor ends with white space. */
  lemma StripLeavesNoEdgeSpace(s: string)
    ensures var r := Strip(s);
      r != [] ==> !IsSpace(r[0]) && !IsSpace(r[|r| - 1])
  {
    var t := TrimStart(s);
    var r := TrimEnd(t);
    if r != [] {
      assert r[0] == t[0] == s[LeadSpaces(s)];
      assert r[|r| - 1] == t[|t| - TrailSpaces(t) - 1];
    }
  }

  /** What `Strip` leaves is the infix of `s` that starts right after its leading white space. */
  lemma StripIsInfix(s: string)
    ensures var r, a := Strip(s), LeadSpaces(s);
      a + |r| <= |s| && r == s[a..a + |r|]
  {
    var a := LeadSpaces(s);
    var t := s[a..];
    assert Strip(s) == t[..|t| - TrailSpaces(t)];
  }

  /** Everything `Strip` cuts from `s`, before and after what it leaves, is white space. */
  lemma StripCutsOnlySpace(s: string)
    ensures var r, a := Strip(s), LeadSpaces(s);
      && a + |r| <= |s|
      && (forall i :: 0 <= i < a ==> IsSpace(s[i]))
      && (forall i :: a + |r| <= i < |s| ==> IsSpace(s[i]))
  {
    var a := LeadSpaces(s);
    var t := s[a..];
    var b := TrailSpaces(t);
    assert |Strip(s)| == |t| - b;
    forall i | a + |t| - b <= i < |s|
      ensures IsSpace(s[i])
    {
      assert s[i] == t[i - a];
    }
  }

  /** Stripping twice is stripping once. */
  lemma StripIdempotent(s: string)
    ensures Strip(Strip(s)) == Strip(s)
  {
    StripLeavesNoEdgeSpace(s);
    StripKeepsTrimmed(Strip(s));
  }

  /** A string with no white space at either end is left as it is. */
  lemma StripKeepsTrimmed(s: string)
    requires s != [] ==> !IsSpace(s[0]) && !IsSpace(s[|s| - 1])
    ensures Strip(s) == s
  {
    assert LeadSpaces(s) == 0;
    assert TrimStart(s) == s;
    assert TrailSpaces(s) == 0;
  }

  /** Only white space strips to the empty string. */
  lemma StripAllSpace(s: string)
    ensures Strip(s) == "" <==> AllSpace(s)
  {
    StripCutsOnlySpace(s);
  }

  /** `c.upper()` for one character: ASCII lower-case letters move to upper case. */
  function UpperChar(c: char): char {
    if 'a' <= c <= 'z' then (c as int - 32) as char else c
  }

  /** `s.upper()`: every character is mapped by `UpperChar`, in place. */
  function Upper(s: string): (r: string)
    ensures |r| == |s|
    ensures forall i :: 0 <= i < |s| ==> r[i] == UpperChar(s[i])
    ensures forall i :: 0 <= i < |r| ==> !('a' <= r[i] <= 'z')
  {
    if s == [] then [] else [UpperChar(s[0])] + Upper(s[1..])
  }

  /**
   * `s.replace(target, replacement)` for single characters: the length is kept
   * and exactly the occurrences of `target` change.
   */
  function Replace(s: string, target: char, replacement: char): (r: string)
    ensures |r| == |s|
    ensures forall i :: 0 <= i < |s| ==> r[i] == if s[i] == target then replacement else s[i]
    ensures target != replacement ==> target !in r
  {
    if s == [] then []
    else [if s[0] == target then replacement else s[0]] + Replace(s[1..], target, replacement)
  }
}
