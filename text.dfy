/**
 * The Kotlin string functions the forms rely on: `isBlank`, `trim`, `lowercase` and
 * `equals(ignoreCase = true)`. Whitespace follows the JVM exactly; letter case is
 * modelled for ASCII letters only.
 */
module Text {

  /** `Char.isWhitespace()` on the JVM, which is `Character.isWhitespace(c) ||
      Character.isSpaceChar(c)`: U+0009..U+000D, U+001C..U+0020 and the Unicode space,
      line and paragraph separators. */
  predicate IsWhitespace(c: char) {
    || ('\t' <= c <= '\r')
    || ('\U{1C}' <= c <= ' ')
    || c == '\U{A0}' || c == '\U{1680}'
    || ('\U{2000}' <= c <= '\U{200A}')
    || c == '\U{2028}' || c == '\U{2029}' || c == '\U{202F}' || c == '\U{205F}'
    || c == '\U{3000}'
  }

  /** `CharSequence.isBlank()`: empty, or whitespace only. */
  predicate IsBlank(s: string) {
    forall i :: 0 <= i < |s| ==> IsWhitespace(s[i])
  }

  /** The number of whitespace characters `s` starts with. */
  function LeadingBlanks(s: string): (n: nat)
    ensures n <= |s|
    ensures forall i :: 0 <= i < n ==> IsWhitespace(s[i])
    ensures n < |s| ==> !IsWhitespace(s[n])
  {
    if s == [] || !IsWhitespace(s[0]) then 0
    else
      var n := 1 + LeadingBlanks(s[1..]);
      assert forall i :: 1 <= i < n ==> s[i] == s[1..][i - 1];
      n
  }

  /** The number of whitespace characters `s` ends with. */
  function TrailingBlanks(s: string): (n: nat)
    ensures n <= |s|
    ensures forall i :: |s| - n <= i < |s| ==> IsWhitespace(s[i])
    ensures n < |s| ==> !IsWhitespace(s[|s| - 1 - n])
  {
    if s == [] || !IsWhitespace(s[|s| - 1]) then 0
    else
      var t := s[..|s| - 1];
      var n := 1 + TrailingBlanks(t);
      assert forall i :: |s| - n <= i < |s| - 1 ==> s[i] == t[i];
      n
  }

  /** `String.trim()`: the slice of `s` from its first to its last non-whitespace
      character; empty exactly when `s` is blank. */
  function Trim(s: string): (r: string)
    ensures r == [] <==> IsBlank(s)
    ensures r != [] ==> !IsWhitespace(r[0]) && !IsWhitespace(r[|r| - 1])
    ensures |r| <= |s|
  {
    var start := LeadingBlanks(s);
    if start == |s| then []
    else s[start..|s| - TrailingBlanks(s)]
  }

  /** A string that neither starts nor ends with whitespace is its own trim. */
  lemma TrimUnchanged(s: string)
    requires s != [] && !IsWhitespace(s[0]) && !IsWhitespace(s[|s| - 1])
    ensures Trim(s) == s
  {
    assert LeadingBlanks(s) == 0 && TrailingBlanks(s) == 0;
    assert s[0..|s|] == s;
  }

  /** The key of a name that neither starts nor ends with whitespace begins with its
      first letter, lower-cased. */
  lemma NameKeyStart(name: string)
    requires name != [] && !IsWhitespace(name[0]) && !IsWhitespace(name[|name| - 1])
    ensures NameKey(name) != [] && NameKey(name)[0] == LowerChar(name[0])
  {
    TrimUnchanged(name);
  }

  /** Two names with no surrounding whitespace whose first letters differ ignoring case
      have different keys. */
  lemma NameKeysDiffer(a: string, b: string)
    requires a != [] && !IsWhitespace(a[0]) && !IsWhitespace(a[|a| - 1])
    requires b != [] && !IsWhitespace(b[0]) && !IsWhitespace(b[|b| - 1])
    requires LowerChar(a[0]) != LowerChar(b[0])
    ensures NameKey(a) != NameKey(b)
  {
    NameKeyStart(a);
    NameKeyStart(b);
  }

  /** Trimming an already trimmed string changes nothing. */
  lemma TrimIdempotent(s: string)
    ensures Trim(Trim(s)) == Trim(s)
  {
    if Trim(s) != [] {
      TrimUnchanged(Trim(s));
    }
  }

  /** `Char.lowercaseChar()`, for ASCII letters. */
  function LowerChar(c: char): char {
    if 'A' <= c <= 'Z' then (c as int + 32) as char else c
  }

  /** `Char.uppercaseChar()`, for ASCII letters. */
  function UpperChar(c: char): char {
    if 'a' <= c <= 'z' then (c as int - 32) as char else c
  }

  /** `String.lowercase()`, character by character. */
  function Lower(s: string): string {
    seq(|s|, i requires 0 <= i < |s| => LowerChar(s[i]))
  }

  /** The key under which the category screens compare names: `name.trim().lowercase()`. */
  function NameKey(name: string): string {
    Lower(Trim(name))
  }

  /** A name's key is empty exactly when the name is blank. */
  lemma NameKeyEmptyIffBlank(name: string)
    ensures NameKey(name) == [] <==> IsBlank(name)
  {
  }

  /** `Char.equals(other, ignoreCase = true)`: equal, or equal after upper-casing, or equal
      after upper- then lower-casing. */
  predicate CharEqualsIgnoreCase(a: char, b: char) {
    a == b || UpperChar(a) == UpperChar(b) || LowerChar(UpperChar(a)) == LowerChar(UpperChar(b))
  }

  /** `String.equals(other, ignoreCase = true)`. */
  predicate EqualsIgnoreCase(a: string, b: string) {
    |a| == |b| && forall i :: 0 <= i < |a| ==> CharEqualsIgnoreCase(a[i], b[i])
  }

  /** Comparing ignoring case is comparing the lower-cased strings. */
  lemma EqualsIgnoreCaseIffSameLower(a: string, b: string)
    ensures EqualsIgnoreCase(a, b) <==> Lower(a) == Lower(b)
  {
    if EqualsIgnoreCase(a, b) {
      forall i | 0 <= i < |a| ensures Lower(a)[i] == Lower(b)[i] {
        assert CharEqualsIgnoreCase(a[i], b[i]);
      }
    }
    if Lower(a) == Lower(b) {
      forall i | 0 <= i < |a| ensures CharEqualsIgnoreCase(a[i], b[i]) {
        assert Lower(a)[i] == Lower(b)[i];
      }
    }
  }

  /** Ignoring case, a string equal to two others makes them equal to each other. */
  lemma EqualsIgnoreCaseTransitive(a: string, b: string, c: string)
    requires EqualsIgnoreCase(a, b) && EqualsIgnoreCase(a, c)
    ensures EqualsIgnoreCase(b, c)
  {
    EqualsIgnoreCaseIffSameLower(a, b);
    EqualsIgnoreCaseIffSameLower(a, c);
    EqualsIgnoreCaseIffSameLower(b, c);
  }
}
