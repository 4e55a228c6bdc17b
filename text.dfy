/**
 * Kotlin's `String.isBlank()`: the string is empty or consists only of
 * whitespace characters. The character set below is the one Kotlin uses on
 * the JVM (`Character.isWhitespace` or `Character.isSpaceChar`). No all-inputs
 * lemma depends on which characters are in it; the scenario lemmas only need
 * the letters they use to be non-whitespace.
 */
module Text {
  predicate IsWhitespace(c: char) {
    var n := c as int;
    || 0x09 <= n <= 0x0D
    || 0x1C <= n <= 0x20
    || n == 0xA0 || n == 0x1680
    || 0x2000 <= n <= 0x200A
    || n == 0x2028 || n == 0x2029 || n == 0x202F || n == 0x205F || n == 0x3000
  }

  predicate IsBlank(s: string) {
    forall i :: 0 <= i < |s| ==> IsWhitespace(s[i])
  }
}
