/** The string primitives the chat client relies on: JavaScript's `String.prototype.trim`,
    the UTF-16 `length` of a string, and the `a || b` idiom used for error texts. */
module Text {
  import opened Wrappers

  /** JavaScript WhiteSpace and LineTerminator code points, which `trim` strips:
      TAB, LF, VT, FF, CR, SPACE, NBSP, OGHAM SPACE MARK, the spaces U+2000 to U+200A,
      LINE and PARAGRAPH SEPARATOR, NARROW NBSP, MEDIUM MATHEMATICAL SPACE,
      IDEOGRAPHIC SPACE and the byte-order mark. */
  predicate IsJsWhitespace(c: char) {
    c == '\t' || c == '\n' || c == '\U{000B}' || c == '\U{000C}' || c == '\r' ||
    c == ' ' || c == '\U{00A0}' || c == '\U{1680}' ||
    ('\U{2000}' <= c <= '\U{200A}') ||
    c == '\U{2028}' || c == '\U{2029}' || c == '\U{202F}' || c == '\U{205F}' ||
    c == '\U{3000}' || c == '\U{FEFF}'
  }

  /** Every character of `s` is whitespace (vacuously true of the empty string). */
  ghost predicate AllWhitespace(s: string) {
    forall i :: 0 <= i < |s| ==> IsJsWhitespace(s[i])
  }

  /** `s` with its leading whitespace removed. */
  function TrimStart(s: string): (r: string)
    ensures |r| <= |s| && r == s[|s| - |r|..]
    ensures r != [] ==> !IsJsWhitespace(r[0])
    ensures AllWhitespace(s[..|s| - |r|])
  {
    if s != [] && IsJsWhitespace(s[0]) then TrimStart(s[1..]) else s
  }

  /** `s` with its trailing whitespace removed. */
  function TrimEnd(s: string): (r: string)
    ensures |r| <= |s| && r == s[..|r|]
    ensures r != [] ==> !IsJsWhitespace(r[|r| - 1])
    ensures AllWhitespace(s[|r|..])
  {
    if s != [] && IsJsWhitespace(s[|s| - 1]) then TrimEnd(s[..|s| - 1]) else s
  }

  /** `s.trim()`. */
  function Trim(s: string): string {
    TrimEnd(TrimStart(s))
  }

  /** What is left after the leading whitespace is gone is empty or starts with a
      non-whitespace character, so it is whitespace only when it is empty. */
  lemma BlankTrimStartIsEmpty(s: string)
    requires AllWhitespace(TrimStart(s))
    ensures TrimStart(s) == []
  {
  }

  /** `!s.trim()` holds exactly when `s` is empty or made only of whitespace. */
  lemma TrimEmptyIffBlank(s: string)
    ensures Trim(s) == [] <==> AllWhitespace(s)
  {
    var t := TrimStart(s);
    var k := |s| - |t|;
    assert s == s[..k] + t;
    if Trim(s) == [] {
      assert t[0..] == t;
      BlankTrimStartIsEmpty(s);
      assert s[..k] == s;
    } else {
      assert t != [];
      assert s[k] == t[0];
    }
  }

  /** Trimming keeps the inner characters: a non-blank string has a non-blank trim
      that starts and ends with a non-whitespace character. */
  lemma TrimNonBlank(s: string)
    requires !AllWhitespace(s)
    ensures Trim(s) != [] && !IsJsWhitespace(Trim(s)[0]) && !IsJsWhitespace(Trim(s)[|Trim(s)| - 1])
  {
    TrimEmptyIffBlank(s);
    var t := TrimStart(s);
    var r := TrimEnd(t);
    assert r == t[..|r|];
    assert r[0] == t[0];
  }

  /** Number of UTF-16 code units of `s`, which is what JavaScript's `length` counts:
      one for a code point in the Basic Multilingual Plane, two for a surrogate pair. */
  function Utf16Length(s: string): nat {
    if s == [] then 0
    else Utf16Length(s[..|s| - 1]) + (if s[|s| - 1] as int > 0xFFFF then 2 else 1)
  }

  /** The UTF-16 length lies between the number of code points and twice it. */
  lemma {:induction false} Utf16LengthBounds(s: string)
    ensures |s| <= Utf16Length(s) <= 2 * |s|
    ensures (forall i :: 0 <= i < |s| ==> s[i] as int <= 0xFFFF) ==> Utf16Length(s) == |s|
  {
    if s != [] {
      Utf16LengthBounds(s[..|s| - 1]);
    }
  }

  /** `value || fallback` on an optional string: JavaScript treats a missing value and the
      empty string as false, so both give the fallback. */
  function OrDefault(value: Option<string>, fallback: string): (r: string)
    ensures r == fallback || (value.Some? && r == value.value && r != "")
    ensures value.Some? && value.value != "" ==> r == value.value
  {
    match value
    case Some(v) => if v != "" then v else fallback
    case None => fallback
  }
}
