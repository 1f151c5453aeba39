/** Prefix, suffix and trailing-whitespace operations on strings, as the
    shell uses them through Rust's `str::starts_with`, `str::ends_with` and
    `str::trim_end`. A Dafny `string` is a sequence of Unicode scalar values,
    like a Rust `&str` seen through `chars()`. */
module Strings {

  /** `s` begins with `prefix` (`str::starts_with`). Every string begins with "". */
  predicate StartsWith(s: string, prefix: string) {
    |prefix| <= |s| && s[..|prefix|] == prefix
  }

  /** `s` ends with `suffix` (`str::ends_with`). */
  predicate EndsWith(s: string, suffix: string) {
    |suffix| <= |s| && s[|s| - |suffix|..] == suffix
  }

  /** The characters Rust's `char::is_whitespace` accepts: the Unicode
      White_Space property. */
  predicate IsWhitespace(c: char) {
    || ('\t' <= c <= '\r')
    || c == ' '
    || c == '\U{0085}'
    || c == '\U{00A0}'
    || c == '\U{1680}'
    || ('\U{2000}' <= c <= '\U{200A}')
    || c == '\U{2028}'
    || c == '\U{2029}'
    || c == '\U{202F}'
    || c == '\U{205F}'
    || c == '\U{3000}'
  }

  /** `str::trim_end`: `s` without its longest all-whitespace suffix. */
  function TrimEnd(s: string): (r: string)
    ensures StartsWith(s, r)
    ensures r == "" || !IsWhitespace(r[|r| - 1])
    decreases |s|
  {
    if s != "" && IsWhitespace(s[|s| - 1]) then TrimEnd(s[..|s| - 1]) else s
  }

  /** What `TrimEnd` removes is whitespace and nothing else. */
  lemma {:induction false} TrimEndRemovesOnlyWhitespace(s: string)
    ensures forall i :: |TrimEnd(s)| <= i < |s| ==> IsWhitespace(s[i])
    decreases |s|
  {
    if s != "" && IsWhitespace(s[|s| - 1]) {
      TrimEndRemovesOnlyWhitespace(s[..|s| - 1]);
    }
  }

  /** `StartsWith` is exactly "is `prefix` followed by something". */
  lemma StartsWithIffConcat(s: string, prefix: string)
    ensures StartsWith(s, prefix) <==> exists rest :: s == prefix + rest
  {
    if StartsWith(s, prefix) {
      assert s == prefix + s[|prefix|..];
    }
    forall rest | s == prefix + rest
      ensures StartsWith(s, prefix)
    {
      assert s[..|prefix|] == prefix;
    }
  }

  /** Trimming removes only whitespace: a non-whitespace first character
      survives it, so a line that starts with `.` or `#` never trims to "". */
  lemma TrimEndKeepsNonWhitespaceHead(s: string)
    requires s != "" && !IsWhitespace(s[0])
    ensures TrimEnd(s) != "" && TrimEnd(s)[0] == s[0]
  {
  }
}
