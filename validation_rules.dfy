/** The FluentValidation rules the validators use, on the values they check. A validator
    runs every rule of every property and reports each failing rule's message, in the
    order the rules are declared; a request is accepted when nothing is reported. */
module ValidationRules {
  /** char.IsWhiteSpace: the Unicode space, line and paragraph separators and the
      control characters U+0009 to U+000D, U+0085. */
  predicate IsWhiteSpace(c: char) {
    || ('\U{9}' <= c <= '\U{D}')
    || c == '\U{20}' || c == '\U{85}' || c == '\U{A0}' || c == '\U{1680}'
    || ('\U{2000}' <= c <= '\U{200A}')
    || c == '\U{2028}' || c == '\U{2029}' || c == '\U{202F}' || c == '\U{205F}' || c == '\U{3000}'
  }

  /** NotEmpty on a string: it has a character that is not white space. */
  predicate NotEmpty(s: string) {
    exists i :: 0 <= i < |s| && !IsWhiteSpace(s[i])
  }

  /** MaximumLength(n). */
  predicate MaximumLength(s: string, n: nat) {
    |s| <= n
  }

  /** The message of a failing rule, nothing for a passing one. */
  function Check(ok: bool, message: string): (r: seq<string>)
    ensures r == [] <==> ok
    ensures |r| <= 1
  {
    if ok then [] else [message]
  }

  /** One for a failing rule, none for a passing one. */
  function Fails(ok: bool): nat {
    if ok then 0 else 1
  }

  /** An empty string and a string of blanks are both empty to NotEmpty. */
  lemma BlankIsEmpty(s: string)
    requires forall i :: 0 <= i < |s| ==> IsWhiteSpace(s[i])
    ensures !NotEmpty(s)
  {
  }
}
