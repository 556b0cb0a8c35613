/**
  The two "is there any text?" tests the validation rules use. The add
  handlers call Spring's `StringUtils.hasText`, which looks for a character
  that `Character.isWhitespace` rejects; the edit form's `@NotBlank` trims the
  string (dropping every character up to U+0020) and asks for a non-empty
  rest. Strings are sequences of UTF-16 code units in Java; every character
  either test singles out lies in the Basic Multilingual Plane, so working on
  `char` gives the same answers.
 */
module JavaText {
  import opened Wrappers

  /** `java.lang.Character.isWhitespace` as of Java 9 (Unicode 8.0 and later):
      the Unicode space, line and paragraph separators other than the no-break
      spaces U+00A0, U+2007 and U+202F, plus the controls U+0009-U+000D and
      U+001C-U+001F. Java 8 also counts U+180E, a space separator before
      Unicode 6.3; that version is not modelled. */
  predicate IsWhitespace(c: char) {
    var n := c as int;
    (0x09 <= n <= 0x0D) || (0x1C <= n <= 0x20) || n == 0x1680
    || (0x2000 <= n <= 0x2006) || (0x2008 <= n <= 0x200A)
    || n == 0x2028 || n == 0x2029 || n == 0x205F || n == 0x3000
  }

  /** Spring's `StringUtils.containsText`: scans for a non-whitespace character. */
  function ContainsText(s: string): (r: bool)
    ensures r <==> exists i :: 0 <= i < |s| && !IsWhitespace(s[i])
  {
    if |s| == 0 then false
    else if !IsWhitespace(s[0]) then true
    else
      var rest := ContainsText(s[1..]);
      assert rest <==> exists i :: 1 <= i < |s| && !IsWhitespace(s[i]) by {
        forall i | 1 <= i < |s| ensures s[i] == s[1..][i - 1] { }
      }
      rest
  }

  /** Spring's `StringUtils.hasText(String)`: not null, not empty, and
      containing a non-whitespace character. */
  predicate HasText(s: Option<string>) {
    s.Some? && |s.value| > 0 && ContainsText(s.value)
  }

  /** True of the characters `String.trim` removes from either end. */
  predicate Trimmable(c: char) {
    c <= ' '
  }

  /** The index `st` where `String.trim`'s first loop stops: the number of
      leading trimmable characters. */
  function TrimStart(s: string): (st: nat)
    ensures st <= |s|
    ensures forall i :: 0 <= i < st ==> Trimmable(s[i])
    ensures st < |s| ==> !Trimmable(s[st])
  {
    if |s| == 0 || !Trimmable(s[0]) then 0
    else
      var k := TrimStart(s[1..]);
      assert forall i :: 1 <= i < 1 + k ==> s[i] == s[1..][i - 1];
      1 + k
  }

  /** The index `len` where `String.trim`'s second loop stops, given that the
      first stopped at `st`: trailing trimmable characters are dropped, never
      going below `st`. */
  function TrimEnd(s: string, st: nat): (len: nat)
    requires st <= |s|
    ensures st <= len <= |s|
    ensures forall i :: len <= i < |s| ==> Trimmable(s[i])
    ensures st < len ==> !Trimmable(s[len - 1])
    decreases |s|
  {
    if |s| == st || !Trimmable(s[|s| - 1]) then |s|
    else
      var len := TrimEnd(s[..|s| - 1], st);
      assert forall i :: 0 <= i < |s| - 1 ==> s[..|s| - 1][i] == s[i];
      len
  }

  /** `String.trim`: the input with its leading and trailing characters at or
      below U+0020 removed, and nothing else. */
  function Trim(s: string): (t: string)
    ensures |t| <= |s|
    ensures exists a, b :: (0 <= a <= b <= |s| && t == s[a..b]
      && (forall i :: 0 <= i < a ==> Trimmable(s[i])) && (forall i :: b <= i < |s| ==> Trimmable(s[i])))
    ensures |t| > 0 ==> !Trimmable(t[0]) && !Trimmable(t[|t| - 1])
  {
    var st := TrimStart(s);
    var len := TrimEnd(s, st);
    assert s[st..len] == s[st..len];
    s[st..len]
  }

  /** Trimming leaves nothing exactly when every character is trimmable. */
  lemma TrimEmptyIff(s: string)
    ensures |Trim(s)| == 0 <==> forall i :: 0 <= i < |s| ==> Trimmable(s[i])
  {
    var st := TrimStart(s);
    var len := TrimEnd(s, st);
    if st < |s| {
      assert !Trimmable(s[st]);
      assert st < len;
    }
  }

  /** Hibernate Validator's `@NotBlank`: not null, and non-empty once trimmed. */
  predicate IsNotBlank(s: Option<string>) {
    s.Some? && |Trim(s.value)| > 0
  }

  /** `@NotBlank` accepts exactly the strings holding a character above U+0020. */
  lemma NotBlankIff(s: Option<string>)
    ensures IsNotBlank(s) <==> s.Some? && exists i :: 0 <= i < |s.value| && !Trimmable(s.value[i])
  {
    if s.Some? {
      TrimEmptyIff(s.value);
    }
  }

  /** The two tests disagree in both directions: a lone NUL is text to Spring
      but blank to `@NotBlank`, and an ideographic space is the opposite. */
  lemma HasTextIsNotNotBlank()
    ensures HasText(Some("\0")) && !IsNotBlank(Some("\0"))
    ensures !HasText(Some("\U{3000}")) && IsNotBlank(Some("\U{3000}"))
  {
    NotBlankIff(Some("\0"));
    NotBlankIff(Some("\U{3000}"));
  }

}
