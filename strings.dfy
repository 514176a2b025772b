/** Character classes used by the library's argument checks. */
module Strings {
  import opened Wrappers

  /** .NET `char.IsWhiteSpace`: the control characters U+0009 to U+000D, U+0085, and the
      Unicode space, line and paragraph separators. */
  predicate IsWhiteSpaceChar(c: char) {
    || c == ' '
    || '\t' <= c <= '\r'
    || c == '\U{85}'
    || c == '\U{A0}'
    || c == '\U{1680}'
    || '\U{2000}' <= c <= '\U{200A}'
    || c == '\U{2028}'
    || c == '\U{2029}'
    || c == '\U{202F}'
    || c == '\U{205F}'
    || c == '\U{3000}'
  }

  /** .NET `string.IsNullOrWhiteSpace`: null, empty, or whitespace only. */
  predicate IsNullOrWhiteSpace(s: Option<string>) {
    s.None? || forall i :: 0 <= i < |s.value| ==> IsWhiteSpaceChar(s.value[i])
  }

  /** A present string that holds a character other than whitespace passes the check. */
  lemma NonBlankWitness(s: string, k: nat)
    requires k < |s| && !IsWhiteSpaceChar(s[k])
    ensures !IsNullOrWhiteSpace(Some(s))
  {
  }

  /** The decimal text of a natural number, as `int.ToString()` renders it. */
  function NatText(n: nat): (r: string)
    ensures |r| > 0
    ensures forall i :: 0 <= i < |r| ==> '0' <= r[i] <= '9'
    decreases n
  {
    var d := ['0' + (n % 10) as char];
    if n < 10 then d else NatText(n / 10) + d
  }
}
