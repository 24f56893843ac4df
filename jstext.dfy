/** The slice of JavaScript string semantics the classifiers rely on:
    the character classes of non-Unicode regular expressions, the white
    space that `String.prototype.trim` removes, and `toLowerCase`
    restricted to ASCII and Latin-1 letters. */
module JsText {

  /** `\w` in a regular expression without the `u` flag, and so the notion of
      "word character" behind `\b`: ASCII letters, digits and underscore only.
      Accented letters are not word characters. */
  predicate IsWordChar(c: char) {
    ('a' <= c <= 'z') || ('A' <= c <= 'Z') || ('0' <= c <= '9') || c == '_'
  }

  /** The line terminators that `.` does not match. */
  predicate IsLineTerminator(c: char) {
    var n := c as int;
    n == 0x0A || n == 0x0D || n == 0x2028 || n == 0x2029
  }

  /** White space and line terminators: what `\s` matches and what `trim` removes. */
  predicate IsWhiteSpace(c: char) {
    var n := c as int;
    IsLineTerminator(c) || n == 0x09 || n == 0x0B || n == 0x0C || n == 0x20 || n == 0xA0 ||
    n == 0x1680 || (0x2000 <= n <= 0x200A) || n == 0x202F || n == 0x205F || n == 0x3000 || n == 0xFEFF
  }

  /** `s.trim().length === 0`: nothing but white space is left once trimmed. */
  predicate TrimmedEmpty(s: string) {
    forall i :: 0 <= i < |s| ==> IsWhiteSpace(s[i])
  }

  predicate IsUpperLetter(c: char) {
    var n := c as int;
    ('A' <= c <= 'Z') || (0xC0 <= n <= 0xDE && n != 0xD7)
  }

  /** `toLowerCase` on one character: ASCII capitals and the Latin-1 capitals
      À–Ö, Ø–Þ move to their small letters; every other character is kept. */
  function LowerChar(c: char): (r: char)
    ensures IsUpperLetter(c) ==> r as int == c as int + 0x20
    ensures !IsUpperLetter(c) ==> r == c
    ensures !IsUpperLetter(r)
  {
    if IsUpperLetter(c) then (c as int + 0x20) as char else c
  }

  /** `toLowerCase` on a string, character by character. */
  function Lower(s: string): (r: string)
    ensures |r| == |s|
    ensures forall i :: 0 <= i < |s| ==> r[i] == LowerChar(s[i])
  {
    seq(|s|, i requires 0 <= i < |s| => LowerChar(s[i]))
  }

  /** Lower-casing twice is lower-casing once. */
  lemma LowerIdempotent(s: string)
    ensures Lower(Lower(s)) == Lower(s)
  {
  }
}
