/** The string operations of Go that host names go through, on ASCII text. */
module Text {

  function LowerChar(c: char): char {
    if 'A' <= c <= 'Z' then (c as int + 32) as char else c
  }

  function ToLower(s: string): (r: string)
    ensures |r| == |s| && forall i :: 0 <= i < |s| ==> r[i] == LowerChar(s[i])
  {
    seq(|s|, i requires 0 <= i < |s| => LowerChar(s[i]))
  }

  /** strings.EqualFold. */
  predicate SameFolded(s: string, t: string) {
    ToLower(s) == ToLower(t)
  }

  predicate HasPrefix(s: string, prefix: string) {
    |prefix| <= |s| && s[..|prefix|] == prefix
  }

  predicate HasSuffix(s: string, suffix: string) {
    |suffix| <= |s| && s[|s| - |suffix|..] == suffix
  }

  function TrimPrefix(s: string, prefix: string): string {
    if HasPrefix(s, prefix) then s[|prefix|..] else s
  }

  function TrimSuffix(s: string, suffix: string): string {
    if HasSuffix(s, suffix) then s[..|s| - |suffix|] else s
  }

  /** strings.LastIndex for one character. */
  function LastIndex(s: string, c: char): (i: int)
    ensures -1 <= i < |s|
    ensures i >= 0 ==> s[i] == c
    ensures forall j :: i < j < |s| ==> s[j] != c
  {
    if s == [] then -1
    else if s[|s| - 1] == c then |s| - 1
    else LastIndex(s[..|s| - 1], c)
  }

  /** Capital letters, and nothing else, are folded. */
  lemma LettersFold(s: string, i: nat)
    requires i < |s|
    ensures var c, d := s[i] as int, ToLower(s)[i] as int; d == if 65 <= c <= 90 then c - 65 + 97 else c
  {
  }

  lemma LowerOfConcat(s: string, t: string)
    ensures ToLower(s + t) == ToLower(s) + ToLower(t)
  {
  }

  lemma LowerTwice(s: string)
    ensures ToLower(ToLower(s)) == ToLower(s)
  {
  }

  /** Folding case keeps suffixes. */
  lemma LowerKeepsSuffix(s: string, suffix: string)
    requires HasSuffix(s, suffix)
    ensures HasSuffix(ToLower(s), ToLower(suffix))
  {
    assert s == s[..|s| - |suffix|] + suffix;
    LowerOfConcat(s[..|s| - |suffix|], suffix);
  }
}
