/**
 * The character classes of JavaScript regular expressions (without the `u`
 * flag) that the dice command grammar uses, and scanning over runs of them.
 */
module Chars {

  /** `\d` */
  predicate IsDigit(c: char) { '0' <= c <= '9' }

  /** An ASCII letter; under the `i` flag `[a-z]` also matches `A`-`Z`. */
  predicate IsLetter(c: char) { 'a' <= c <= 'z' || 'A' <= c <= 'Z' }

  /** `\s`: the ECMAScript WhiteSpace and LineTerminator code points. */
  predicate IsSpace(c: char) {
    || c == ' ' || c == '\t' || c == '\n' || c == '\r'
    || c == '\U{000B}' || c == '\U{000C}' || c == '\U{00A0}' || c == '\U{1680}'
    || ('\U{2000}' <= c <= '\U{200A}')
    || c == '\U{2028}' || c == '\U{2029}' || c == '\U{202F}' || c == '\U{205F}'
    || c == '\U{3000}' || c == '\U{FEFF}'
  }

  /** `\w` (the `i` flag adds nothing to it without the `u` flag). */
  predicate IsWordChar(c: char) { IsLetter(c) || IsDigit(c) || c == '_' }

  /** `[a-z ]` under the `i` flag: the options group. */
  predicate IsOptionChar(c: char) { IsLetter(c) || c == ' ' }

  /** `d` under the `i` flag: the separator between count and sides. */
  predicate IsDieLetter(c: char) { c == 'd' || c == 'D' }

  /** `[\d+-]`: sides and modifier of the left roll definition. */
  predicate IsLeftTailChar(c: char) { IsDigit(c) || c == '+' || c == '-' }

  /** `[<>=]`: the operator group. */
  predicate IsOperatorChar(c: char) { c == '<' || c == '>' || c == '=' }

  /** `[\w+-]`: the right roll definition or scalar. */
  predicate IsRightChar(c: char) { IsWordChar(c) || c == '+' || c == '-' }

  /** Every character of `s[i..j]` belongs to the class `p`. */
  ghost predicate Run(s: string, i: int, j: int, p: char -> bool) {
    0 <= i <= j <= |s| && forall k :: i <= k < j ==> p(s[k])
  }

  /** The end of the longest run of class `p` starting at `i` (what a greedy `p*` consumes). */
  function SkipWhile(s: string, i: nat, p: char -> bool): (j: nat)
    requires i <= |s|
    ensures i <= j <= |s|
    ensures Run(s, i, j, p)
    ensures j == |s| || !p(s[j])
    decreases |s| - i
  {
    if i == |s| || !p(s[i]) then i else SkipWhile(s, i + 1, p)
  }

  /** A run that cannot be extended is the one `SkipWhile` finds; it follows from `SkipWhile`'s contract. */
  lemma SkipWhileUnique(s: string, i: nat, j: nat, p: char -> bool)
    requires Run(s, i, j, p)
    requires j == |s| || !p(s[j])
    ensures SkipWhile(s, i, p) == j
  {
  }

  /** No run of `p` from `i` reaches past the one `SkipWhile` finds. */
  lemma SkipWhileLongest(s: string, i: nat, j: nat, p: char -> bool)
    requires Run(s, i, j, p)
    ensures j <= SkipWhile(s, i, p)
  {
  }
}
