/**
 * Character classes the harness relies on: Java's `Character.isWhitespace`,
 * which decides `StringUtils.isBlank`, and the ASCII letters that
 * `RandomStringUtils.randomAlphabetic` draws from.
 */
module Text {
  import opened Wrappers

  /**
   * `Character.isWhitespace`: the ASCII controls TAB, LF, VT, FF, CR and
   * FS..US, plus every Unicode space, line or paragraph separator except the
   * non-breaking ones (U+00A0, U+2007, U+202F).
   */
  predicate IsWhitespace(c: char) {
    var n := c as int;
    || (0x09 <= n <= 0x0D)
    || (0x1C <= n <= 0x20)
    || n == 0x1680
    || (0x2000 <= n <= 0x2006)
    || (0x2008 <= n <= 0x200A)
    || n == 0x2028 || n == 0x2029
    || n == 0x205F || n == 0x3000
  }

  /** `StringUtils.isBlank`: null, empty, or whitespace only. */
  function IsBlank(s: Option<string>): (b: bool)
    ensures s.None? ==> b
    ensures !b <==> s.Some? && exists i :: 0 <= i < |s.value| && !IsWhitespace(s.value[i])
  {
    match s
    case None => true
    case Some(v) => forall i :: 0 <= i < |v| ==> IsWhitespace(v[i])
  }

  /** `StringUtils.isNotBlank`. */
  function IsNotBlank(s: Option<string>): (nb: bool)
    ensures nb ==> s.Some? && |s.value| > 0
  {
    !IsBlank(s)
  }

  /** The Java null check `s != null`. */
  predicate IsPresent(s: Option<string>) {
    s.Some?
  }

  predicate IsAsciiLetter(c: char) {
    ('A' <= c <= 'Z') || ('a' <= c <= 'z')
  }

  /** What `randomAlphabetic(16)` can return: sixteen ASCII letters. */
  predicate IsRandomSegment(s: string) {
    |s| == 16 && forall i :: 0 <= i < |s| ==> IsAsciiLetter(s[i])
  }

  /** Blankness is strictly weaker than absence: every non-blank value is present. */
  lemma NotBlankIsPresent(s: Option<string>)
    ensures IsNotBlank(s) ==> IsPresent(s)
    ensures IsPresent(Some("")) && IsBlank(Some(""))
  {
  }
}
