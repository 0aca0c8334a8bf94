/** The string test the core uses everywhere: StringUtils.hasText. */
module Text {
  import opened Wrappers

  /** Java's Character.isWhitespace: the tab to carriage-return controls, the four
      information separators, and the Unicode space, line and paragraph separators
      except the three non-breaking spaces (U+00A0, U+2007, U+202F). */
  predicate IsWhitespace(ch: char) {
    ('\U{0009}' <= ch <= '\U{000D}') || ('\U{001C}' <= ch <= '\U{0020}') ||
    ch == '\U{1680}' || ('\U{2000}' <= ch <= '\U{2006}') || ('\U{2008}' <= ch <= '\U{200A}') ||
    ch == '\U{2028}' || ch == '\U{2029}' || ch == '\U{205F}' || ch == '\U{3000}'
  }

  /** True when some character of s is not whitespace (hence s is not empty). */
  predicate HasText(s: string) {
    exists i :: 0 <= i < |s| && !IsWhitespace(s[i])
  }

  /** HasText of a nullable string: null has no text. */
  predicate OptionHasText(s: Option<string>) {
    s.Some? && HasText(s.value)
  }

  lemma EmptyAndBlankHaveNoText(n: nat)
    ensures !HasText("")
    ensures !HasText(seq(n, _ => ' '))
  {
  }

  lemma {:induction false} TextSurvivesPadding(pad: string, s: string)
    requires forall i :: 0 <= i < |pad| ==> IsWhitespace(pad[i])
    ensures HasText(pad + s) <==> HasText(s)
    ensures HasText(s + pad) <==> HasText(s)
  {
    if HasText(pad + s) {
      var i :| 0 <= i < |pad + s| && !IsWhitespace((pad + s)[i]);
      assert i >= |pad|;
      assert s[i - |pad|] == (pad + s)[i];
    }
    if HasText(s) {
      var i :| 0 <= i < |s| && !IsWhitespace(s[i]);
      assert (pad + s)[i + |pad|] == s[i];
      assert (s + pad)[i] == s[i];
    }
    if HasText(s + pad) {
      var i :| 0 <= i < |s + pad| && !IsWhitespace((s + pad)[i]);
      assert i < |s|;
      assert s[i] == (s + pad)[i];
    }
  }
}
