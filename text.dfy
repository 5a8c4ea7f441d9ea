/**
 * String helpers shared by the search filters and messages: JavaScript truthiness of
 * optional strings, ASCII lower-casing, `includes`, `startsWith`, `replace(/x/g, y)` and
 * decimal rendering of counters.
 */
module Text {
  import opened Wrappers

  /** JavaScript truthiness of an optional string: present and not the empty string. */
  predicate Truthy(s: Option<string>) {
    s.Some? && s.value != ""
  }

  /** `toLowerCase` on one character, restricted to the ASCII letters A-Z. */
  function LowerChar(c: char): char {
    if 'A' <= c <= 'Z' then (c as int + 32) as char else c
  }

  /** `toLowerCase` on a string: every character lower-cased, nothing else changed. */
  function ToLower(s: string): (r: string)
    ensures |r| == |s|
    ensures forall i :: 0 <= i < |s| ==> r[i] == LowerChar(s[i])
  {
    if s == [] then [] else [LowerChar(s[0])] + ToLower(s[1..])
  }

  /** `s.startsWith(prefix)`. */
  predicate StartsWith(s: string, prefix: string) {
    |prefix| <= |s| && s[..|prefix|] == prefix
  }

  /** `part` occurs in `s` starting at index `i`. */
  predicate OccursAt(s: string, part: string, i: int) {
    0 <= i <= |s| - |part| && s[i..i + |part|] == part
  }

  /** `s.includes(part)`: `part` occurs in `s` at some position. */
  predicate Contains(s: string, part: string) {
    exists i :: 0 <= i <= |s| - |part| && OccursAt(s, part, i)
  }

  /** `field.toLowerCase().includes(term.toLowerCase())`. */
  predicate IncludesIgnoringCase(field: string, term: string) {
    Contains(ToLower(field), ToLower(term))
  }

  /** The empty search term occurs in every field. */
  lemma EmptyTermMatchesEverything(field: string)
    ensures IncludesIgnoringCase(field, "")
    ensures Contains(field, "")
  {
    assert OccursAt(ToLower(field), ToLower(""), 0);
    assert OccursAt(field, "", 0);
  }

  /** `s.replace(/from/g, to)` for a single-character pattern. */
  function ReplaceAll(s: string, from: char, to: char): (r: string)
    ensures |r| == |s|
    ensures forall i :: 0 <= i < |s| ==> r[i] == if s[i] == from then to else s[i]
  {
    if s == [] then [] else [if s[0] == from then to else s[0]] + ReplaceAll(s[1..], from, to)
  }

  /** Decimal digit character for 0-9. */
  function DigitChar(d: nat): char
    requires d < 10
  {
    "0123456789"[d]
  }

  /** The decimal rendering of a counter inside a template literal. */
  function NatToString(n: nat): (r: string)
    ensures |r| >= 1
    decreases n
  {
    if n < 10 then [DigitChar(n)] else NatToString(n / 10) + [DigitChar(n % 10)]
  }
}
