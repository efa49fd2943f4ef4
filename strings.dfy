/**
 * The two functions of Go's strings package that the cacheability policy
 * relies on: ToLower and Contains.
 */
module Strings {

  /**
   * Go's unicode.ToLower on one character, as seen by an ASCII pattern:
   * 'A'..'Z' become 'a'..'z', and the only two non-ASCII characters whose
   * lower case is ASCII map to it (U+0130, capital I with dot, to 'i'; the
   * Kelvin sign U+212A to 'k'). Every other character is kept; Go maps some
   * of those to other non-ASCII characters, which can neither make nor break
   * a match against an ASCII pattern.
   */
  function LowerChar(c: char): char
  {
    if 'A' <= c <= 'Z' then (c as int + 32) as char
    else if c == '\U{0130}' then 'i'
    else if c == '\U{212A}' then 'k'
    else c
  }

  /** strings.ToLower: each character lowered on its own, length kept. */
  function ToLower(s: string): (t: string)
    ensures |t| == |s|
    ensures forall i :: 0 <= i < |s| ==> t[i] == LowerChar(s[i])
  {
    if s == [] then [] else [LowerChar(s[0])] + ToLower(s[1..])
  }

  /** sub occurs in s at index i. */
  predicate OccursAt(s: string, sub: string, i: int)
  {
    0 <= i && i + |sub| <= |s| && s[i..i + |sub|] == sub
  }

  /** strings.Contains: some occurrence of sub in s (the empty string occurs everywhere). */
  function Contains(s: string, sub: string): (found: bool)
    ensures found <==> exists i :: OccursAt(s, sub, i)
    decreases |s|
  {
    if |s| < |sub| then false
    else if s[..|sub|] == sub then assert OccursAt(s, sub, 0); true
    else
      assert !OccursAt(s, sub, 0);
      assert forall i :: OccursAt(s[1..], sub, i) ==> OccursAt(s, sub, i + 1);
      assert forall i :: OccursAt(s, sub, i) ==> OccursAt(s[1..], sub, i - 1);
      Contains(s[1..], sub)
  }
}
