/**
  The string operations behind the case-insensitive searches:
  `toLowerCase` (restricted to ASCII letters) and `includes`.
*/
module Text {

  predicate IsUpper(c: char) { 'A' <= c <= 'Z' }

  /** The ASCII part of `String.prototype.toLowerCase` for one character. */
  function LowerChar(c: char): (r: char)
    ensures !IsUpper(r)
    ensures IsUpper(c) ==> r as int == c as int + 32
    ensures !IsUpper(c) ==> r == c
  {
    if IsUpper(c) then (c as int + 32) as char else c
  }

  /** `s.toLowerCase()`: same length, no upper-case letter left, every other character kept. */
  function Lower(s: string): (r: string)
    ensures |r| == |s|
    ensures forall i :: 0 <= i < |s| ==> r[i] == LowerChar(s[i])
  {
    if s == [] then [] else [LowerChar(s[0])] + Lower(s[1..])
  }

  /** `needle` occurs in `haystack` starting at position `i`. */
  predicate OccursAt(haystack: string, needle: string, i: int)
  {
    0 <= i && i + |needle| <= |haystack| && haystack[i..i + |needle|] == needle
  }

  /** `haystack.includes(needle)`: `needle` occurs in `haystack` at some position. */
  predicate Includes(haystack: string, needle: string)
  {
    exists i | 0 <= i <= |haystack| - |needle| :: OccursAt(haystack, needle, i)
  }

  /** `text.toLowerCase().includes(query.toLowerCase())`. */
  predicate MatchesIgnoringCase(text: string, query: string)
  {
    Includes(Lower(text), Lower(query))
  }

  /** Every string includes the empty string. */
  lemma IncludesEmpty(haystack: string)
    ensures Includes(haystack, "")
  {
    assert OccursAt(haystack, "", 0);
  }

  /** An empty query matches every text. */
  lemma EmptyQueryMatches(text: string)
    ensures MatchesIgnoringCase(text, "")
  {
    IncludesEmpty(Lower(text));
  }

  /** Lower-casing twice is lower-casing once. */
  lemma {:induction false} LowerIdempotent(s: string)
    ensures Lower(Lower(s)) == Lower(s)
  {
    if s != [] {
      LowerIdempotent(s[1..]);
    }
  }

  /** Lower-casing the query first does not change the verdict. */
  lemma MatchIgnoresQueryCase(text: string, query: string)
    ensures MatchesIgnoringCase(text, Lower(query)) == MatchesIgnoringCase(text, query)
  {
    LowerIdempotent(query);
  }

  /** Lower-casing the text first does not change the verdict. */
  lemma MatchIgnoresTextCase(text: string, query: string)
    ensures MatchesIgnoringCase(Lower(text), query) == MatchesIgnoringCase(text, query)
  {
    LowerIdempotent(text);
  }

  /** A text that contains the query verbatim matches it. */
  lemma {:induction false} VerbatimOccurrenceMatches(text: string, query: string)
    requires Includes(text, query)
    ensures MatchesIgnoringCase(text, query)
  {
    var i :| 0 <= i <= |text| - |query| && OccursAt(text, query, i);
    assert Lower(text)[i..i + |query|] == Lower(query);
    assert OccursAt(Lower(text), Lower(query), i);
  }
}
