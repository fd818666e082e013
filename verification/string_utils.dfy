/**
 * The two string tests of Apache Commons Lang that the condition relies on,
 * over strings whose references are never null (the JSON accessors never
 * return null for a present key).
 */
module StringUtils {

  /**
   * java.lang.Character.isWhitespace: the ASCII controls TAB, LF, VT, FF, CR,
   * the separators U+001C..U+001F, and the Unicode space, line and paragraph
   * separators except the non-breaking ones (U+00A0, U+2007, U+202F).
   */
  predicate IsWhitespace(c: char)
  {
    var n := c as int;
    (0x09 <= n <= 0x0D) || (0x1C <= n <= 0x20)
    || n == 0x1680 || (0x2000 <= n <= 0x2006) || (0x2008 <= n <= 0x200A)
    || n == 0x2028 || n == 0x2029 || n == 0x205F || n == 0x3000
  }

  /** StringUtils.isBlank: empty, or made of whitespace only. */
  predicate IsBlank(s: string)
  {
    forall i | 0 <= i < |s| :: IsWhitespace(s[i])
  }

  /** StringUtils.isNotBlank. */
  predicate IsNotBlank(s: string)
  {
    !IsBlank(s)
  }

  /** StringUtils.isNotEmpty: at least one character, whitespace included. */
  predicate IsNotEmpty(s: string)
  {
    |s| > 0
  }
}
