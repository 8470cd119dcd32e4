/** The Kotlin string predicates the app relies on: `isBlank`,
    `isNullOrBlank`, `orEmpty` and `contains(..., ignoreCase = true)`. */
module Text {
  import opened Results

  /** Kotlin/JVM `Char.isWhitespace()`: Java's `Character.isWhitespace` or
      `Character.isSpaceChar`, written out by code point. */
  predicate IsWhitespace(c: char) {
    var n := c as int;
    (9 <= n <= 13) || (28 <= n <= 32) || n == 0xA0 || n == 0x1680 ||
    (0x2000 <= n <= 0x200A) || n == 0x2028 || n == 0x2029 || n == 0x202F ||
    n == 0x205F || n == 0x3000
  }

  /** `String.isBlank()`: empty or whitespace only. */
  predicate IsBlank(s: string) {
    forall i :: 0 <= i < |s| ==> IsWhitespace(s[i])
  }

  /** `String?.isNullOrBlank()`. */
  predicate IsNullOrBlank(s: Option<string>) {
    s.None? || IsBlank(s.value)
  }

  /** `String?.orEmpty()`. */
  function OrEmpty(s: Option<string>): (r: string)
    ensures s.Some? ==> r == s.value
    ensures s.None? ==> r == ""
  {
    s.GetOr("")
  }

  /** ASCII lower-casing, the case folding used for `ignoreCase`. */
  function ToLower(c: char): (r: char)
    ensures 'A' <= c <= 'Z' ==> 'a' <= r <= 'z'
    ensures !('A' <= c <= 'Z') ==> r == c
  {
    if 'A' <= c <= 'Z' then (c as int + 32) as char else c
  }

  predicate SameIgnoringCase(a: char, b: char) {
    ToLower(a) == ToLower(b)
  }

  /** `needle` occurs in `s` at offset `at`, ignoring case. */
  predicate OccursAt(s: string, needle: string, at: nat) {
    at + |needle| <= |s| &&
    forall j :: 0 <= j < |needle| ==> SameIgnoringCase(s[at + j], needle[j])
  }

  /** `s.contains(needle, ignoreCase = true)`. */
  predicate ContainsIgnoreCase(s: string, needle: string) {
    exists at: nat | at <= |s| :: OccursAt(s, needle, at)
  }

  /** Nothing non-empty occurs in the empty string. */
  lemma EmptyContainsNothing(needle: string)
    requires needle != []
    ensures !ContainsIgnoreCase("", needle)
  {
  }
}
