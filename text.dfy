/** The string operations the trip planner applies to moods and names:
    Python's `str.lower`, `str.strip`, `str.title` and `str.startswith`.
    Case mapping is modelled on the ASCII letters only. */
module Text {

  /** Python's `str.isspace()` on the code points below U+0100. */
  predicate IsSpace(c: char) {
    ('\t' <= c <= '\r') || ('\U{1c}' <= c <= ' ') || c == '\U{85}' || c == '\U{a0}'
  }

  predicate IsUpper(c: char) { 'A' <= c <= 'Z' }

  predicate IsLower(c: char) { 'a' <= c <= 'z' }

  predicate IsLetter(c: char) { IsUpper(c) || IsLower(c) }

  function ToLower(c: char): char {
    if IsUpper(c) then (c as int + 32) as char else c
  }

  function ToUpper(c: char): char {
    if IsLower(c) then (c as int - 32) as char else c
  }

  /** `s.lower()` */
  function Lower(s: string): string {
    seq(|s|, i requires 0 <= i < |s| => ToLower(s[i]))
  }

  /** A lower-cased string holds no upper-case letter. */
  lemma LowerHasNoUpper(s: string)
    ensures forall c :: c in Lower(s) ==> !IsUpper(c)
  {
    forall c | c in Lower(s) ensures !IsUpper(c) {
      var k :| 0 <= k < |Lower(s)| && Lower(s)[k] == c;
      assert c == ToLower(s[k]);
    }
  }

  /** `lower()` keeps every character that is not an upper-case letter and
      maps each upper-case letter to its own lower-case letter. */
  lemma LowerMapsOnlyUpper(s: string)
    ensures |Lower(s)| == |s|
    ensures forall i :: 0 <= i < |s| ==> !IsUpper(s[i]) ==> Lower(s)[i] == s[i]
    ensures forall i :: 0 <= i < |s| ==> IsUpper(s[i]) ==>
              IsLower(Lower(s)[i]) && ToUpper(Lower(s)[i]) == s[i]
  {
  }

  /** Lower-casing twice is lower-casing once. */
  lemma LowerIdempotent(s: string)
    ensures Lower(Lower(s)) == Lower(s)
  {
  }

  /** The end of the whitespace run of `s` that starts at `j`. */
  function SpanFrom(s: string, j: nat): (e: nat)
    requires j <= |s|
    ensures j <= e <= |s|
    ensures forall k :: j <= k < e ==> IsSpace(s[k])
    ensures e == |s| || !IsSpace(s[e])
    decreases |s| - j
  {
    if j < |s| && IsSpace(s[j]) then SpanFrom(s, j + 1) else j
  }

  /** The start of the whitespace run of `s` that ends at `j`, going back no
      further than `lo`. */
  function BackFrom(s: string, lo: nat, j: nat): (e: nat)
    requires lo <= j <= |s|
    ensures lo <= e <= j
    ensures forall k :: e <= k < j ==> IsSpace(s[k])
    ensures e == lo || !IsSpace(s[e - 1])
  {
    if j > lo && IsSpace(s[j - 1]) then BackFrom(s, lo, j - 1) else j
  }

  /** Where the text of `s` starts: `s.lstrip()` drops the characters before. */
  function StripStart(s: string): (i: nat)
    ensures i <= |s|
  {
    SpanFrom(s, 0)
  }

  /** Where the text of `s` ends: `s.rstrip()` drops the characters from here. */
  function StripEnd(s: string): (j: nat)
    ensures StripStart(s) <= j <= |s|
  {
    BackFrom(s, StripStart(s), |s|)
  }

  /** `s.strip()`: the run of `s` between its leading and its trailing
      whitespace, which neither starts nor ends with whitespace. */
  function Strip(s: string): (r: string)
    ensures r == [] || (!IsSpace(r[0]) && !IsSpace(r[|r| - 1]))
  {
    s[StripStart(s)..StripEnd(s)]
  }

  /** `strip()` drops only whitespace, and only at either end: the result is
      the slice between the leading and the trailing whitespace. */
  lemma StripDropsOnlyOuterSpace(s: string)
    ensures Strip(s) == s[StripStart(s)..StripEnd(s)]
    ensures forall k :: 0 <= k < StripStart(s) ==> IsSpace(s[k])
    ensures forall k :: StripEnd(s) <= k < |s| ==> IsSpace(s[k])
  {
  }

  /** Stripping keeps only characters of the input. */
  lemma StripKeepsCharacters(s: string)
    ensures forall c :: c in Strip(s) ==> c in s
  {
    forall c | c in Strip(s) ensures c in s {
      var k :| 0 <= k < |Strip(s)| && Strip(s)[k] == c;
      assert s[StripStart(s) + k] == c;
    }
  }

  /** `s.title()`: a letter is upper-cased when the character before it is
      not a letter, and lower-cased otherwise. */
  function Title(s: string): string {
    seq(|s|, i requires 0 <= i < |s| =>
      if i > 0 && IsLetter(s[i - 1]) then ToLower(s[i]) else ToUpper(s[i]))
  }

  /** `s.startswith(prefix)` */
  predicate StartsWith(s: string, prefix: string) {
    |prefix| <= |s| && s[..|prefix|] == prefix
  }
}
